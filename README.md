# electron-whisper-app, modelled in Dafny

electron-whisper-app is a desktop front end for OpenAI Whisper. It has three
parts. A window (`renderer.js`) lets the user pick a video and an output
directory. It then asks the Electron main process (`main.js`) to start the
Python worker `transcribe_video.py`. The worker writes a SubRip (`.srt`)
subtitle file and announces its path on standard output with a marker line.
The main process relays the worker's output to the window. It also picks the
announced path out of that output and reports success or failure when the
worker exits.

Each start message spawns exactly one worker. The code has no job queue, no
limit on how many workers run at once and no batch bookkeeping. The only
guard against a second run is the start button, which stays disabled while a
run is under way. The model follows the code in this.

The model has nine modules:

- `Decimal`: decimal rendering of naturals and integers, zero padding, and
  reading digits back.
- `Text`: `indexOf`, `includes` and `lastIndexOf`, and stripping. Python's
  `str.strip()` and JavaScript's `trim()` remove different whitespace sets,
  so each set is written out.
- `Timestamp`: `format_timestamp` on whole milliseconds, and a reader for
  its output.
- `SubRip`: the document `write_srt_to_path` produces, and a line-based
  reader that shows the document carries every segment.
- `TranscribeVideo`: the worker's writing loop, the two lines printed after
  it, and the `transcribe_options` dictionary.
- `Ipc`: the request the window sends and the three kinds of messages it
  receives.
- `MainProcess`: the interpreter choice, the argument vector, the echoed
  command and the four process callbacks. The callbacks are specified by
  functions over the sequence of process events.
- `Renderer`: the name and path derivations and the start checks. It also
  has a `Window` class. The class's fields are the script's module-level
  variables and the state of the elements it writes: the button's disabled
  flag, the log text and the path display. Each handler is proved against
  a function on snapshots of that state.
- `Pipeline`: properties that span the three processes.

The main process scans each stdout chunk for `SRT_OUTPUT_PATH:`. It keeps
the trimmed text after the first occurrence, up to the end of the chunk. The
worker prints the marker line and then, in its `finally` block, lines
about the deleted temporary audio file and directory. When such output
reaches the main process in the marker's chunk, the captured path is the
path, a line ending and the later output. `MainProcess.CaptureTakesRestOfChunk` states this for the model
as written. `Pipeline.PathReachesWindow` shows that the window displays
exactly the printed path when the marker's line ends its chunk. The chunk
may start with other output without a marker, such as the confirmation line
printed just before. The line may end in a line feed, or, on Windows, where
Python's text-mode standard output translates line feeds, in a carriage
return and a line feed.

## Model

| member | source | states |
|---|---|---|
| Text.IndexOf | main.js:120 | defined by its body (`IndexOfFrom` from position 0); properties in `Text.IndexOfFrom` |
| Text.Includes | main.js:119 | defined by its body (`IndexOf` finds the pattern); properties in `Text.IndexOfFrom` |
| Text.PyStrip | transcribe_video.py:31 | defined by its body (strip of Python's whitespace set); properties in `Text.StripSlice`, `Text.StripEmpty`, `Text.StripIdentity` |
| Text.JsTrim | main.js:104 | defined by its body (strip of JavaScript's whitespace set); properties in `Text.StripSlice`, `Text.StripEmpty`, `Text.StripPadded` |
| Decimal.NatToString | transcribe_video.py:20 | the rendering of a number is non-empty, all digits, and has no leading zero unless it is `0` |
| Decimal.ValueOfNatToString | transcribe_video.py:20 | reading the rendering of n gives back n |
| Decimal.NatToStringLength | transcribe_video.py:20 | the rendering has at most k digits exactly when n < 10^k |
| Decimal.PadNat | transcribe_video.py:20-22 | defined by its body (`{n:02d}` and `{n:03d}`); properties in `Decimal.PadNatProperties`, `Timestamp.PadFields` |
| Decimal.PadNatProperties | transcribe_video.py:20-22 | a zero-padded field is all digits, reads back as the number, is at least the width long, and exactly that long when the number fits |
| Decimal.IntToString | main.js:135 | an exit code is rendered with a leading `-` exactly when it is negative |
| Decimal.IntToStringInjective | main.js:135 | distinct integers render differently |
| Text.IndexOfFrom | main.js:119-120 | the result is the first position at or after the start where the pattern occurs, or none when it occurs nowhere |
| Text.LastIndexOf | renderer.js:54 | the result is the last position of the character, or none when it does not occur |
| Text.IsPySpace | transcribe_video.py:31 | defined by its body (the characters Python's `str.strip()` removes); properties in `Text.StripSlice`, `Text.StripEmpty` |
| Text.IsJsSpace | main.js:104 | defined by its body (the white space and line terminators JavaScript's `trim()` removes); properties in `Text.StripSlice`, `Pipeline.LanguagePassedOn` |
| Text.StripSlice | transcribe_video.py:31 | stripping keeps a contiguous middle slice, removes only whitespace, and leaves no whitespace at either end |
| Text.StripEmpty | main.js:104 | stripping leaves nothing exactly when every character is whitespace |
| Text.StripPadded | main.js:120 | trailing whitespace after an already stripped string is removed again, giving that string back |
| Text.StripIdentity | transcribe_video.py:31 | a string with no whitespace at either end strips to itself |
| Timestamp.ClockText | transcribe_video.py:19-22 | defined by its body; properties in `Timestamp.PadFields`, `Timestamp.HoursTextRoundTrip`, `Timestamp.MinutesTextRoundTrip` |
| Timestamp.FormatTimestamp | transcribe_video.py:10-22 | defined by its body; properties in `Timestamp.TimestampLength`, `Timestamp.TimestampRoundTrip`, `Timestamp.TimestampInjective`, `Timestamp.TimestampCharacters` |
| Timestamp.Decompose | transcribe_video.py:13-18 | minutes < 60, seconds < 60, milliseconds < 1000, and the four fields add back up to the total |
| Timestamp.DecomposeUnique | transcribe_video.py:13-18 | any split with those bounds that adds up to the total is the one computed |
| Timestamp.PadFields | transcribe_video.py:20-22 | minutes and seconds are exactly 2 digits, milliseconds exactly 3, hours at least 2, each reading back as its field |
| Timestamp.TimestampLength | transcribe_video.py:19-22 | the hours field appears exactly when asked for or the time is at least an hour; otherwise the text is `MM:SS`, marker, `mmm` |
| Timestamp.HoursTextRoundTrip | transcribe_video.py:20 | the `HH:MM:SS<marker>mmm` text of a clock reads back as that clock |
| Timestamp.MinutesTextRoundTrip | transcribe_video.py:22 | the `MM:SS<marker>mmm` text of a clock under one hour reads back as that clock |
| Timestamp.TimestampRoundTrip | transcribe_video.py:10-22 | reading a formatted timestamp gives back the millisecond count, for any options and marker |
| Timestamp.TimestampInjective | transcribe_video.py:10-22 | distinct times format differently under the same options |
| Timestamp.TimestampCharacters | transcribe_video.py:10 | with the default options a timestamp holds only digits, `:` and the default marker `,` |
| SubRip.CueLines | transcribe_video.py:32-34 | defined by its body; properties in `SubRip.ParseOneCue`, `SubRip.CueLinesHaveNoBreak` |
| SubRip.CueText | transcribe_video.py:29-34 | defined by its body; properties in `SubRip.SrtCuesLines`, `TranscribeVideo.WriteCue` |
| SubRip.SrtCues | transcribe_video.py:28-34 | defined by its body; properties in `SubRip.SrtCuesSnoc`, `SubRip.SrtCuesLines` |
| SubRip.SrtText | transcribe_video.py:28-34 | defined by its body; properties in `SubRip.SrtRoundTrip`, `TranscribeVideo.WriteSrtToPath` |
| SubRip.SrtCuesSnoc | transcribe_video.py:28-34 | appending a segment appends exactly its cue, numbered after the others |
| SubRip.ExpectedCues | transcribe_video.py:28-34 | one cue per segment, numbered consecutively from the first number, with the segment's times and stripped text |
| SubRip.JoinLinesAppend | transcribe_video.py:32-34 | writing two runs of lines is writing them one after the other |
| SubRip.SrtCuesLines | transcribe_video.py:28-34 | the document is the four lines of each cue in segment order, each ended by a line feed |
| SubRip.SplitJoinLines | transcribe_video.py:32-34 | lines without line feeds, written with line feeds and split again, come back unchanged |
| SubRip.TimingLine | transcribe_video.py:33 | defined by its body; properties in `SubRip.TimestampHasNoBreak`, `SubRip.ParseOneCue` |
| SubRip.TimestampHasNoBreak | transcribe_video.py:29-30 | a timestamp has no space and no line feed, so the timing line splits at its ` --> ` |
| SubRip.ParseOneCue | transcribe_video.py:32-34 | the four lines of a cue read back as its index, start, end and stripped text |
| SubRip.ParseAllCueLines | transcribe_video.py:28-34 | the lines of all cues read back as the expected cues |
| SubRip.CueLinesHaveNoBreak | transcribe_video.py:31-34 | when no stripped text holds a line feed, no written line does |
| SubRip.SrtRoundTrip | transcribe_video.py:28-34 | reading the document back gives exactly one cue per segment, numbered from 1 in order, with its start, end and stripped text |
| TranscribeVideo.SavedLine | transcribe_video.py:35 | defined by its body; properties in `TranscribeVideo.ReportSaved` |
| TranscribeVideo.MarkerLine | transcribe_video.py:37 | defined by its body; properties in `TranscribeVideo.MarkerLineOutput`, `Pipeline.MarkerLineCaptured` |
| TranscribeVideo.TextModeOutput | transcribe_video.py:35-37 | the text reaches the pipe unchanged off Windows and whenever it has no line feed, and is never shorter |
| TranscribeVideo.TextModeOutputAppend | transcribe_video.py:35-37 | the output of two texts printed in turn is their outputs joined |
| TranscribeVideo.MarkerLineOutput | transcribe_video.py:37 | for a path without a line feed, the marker line reaches the pipe as the marker, the path, and the platform's line ending (`\r\n` on Windows, `\n` elsewhere) |
| TranscribeVideo.SrtTextStep | transcribe_video.py:28-34 | the document for the first i+1 segments extends the one for the first i by cue i+1 |
| TranscribeVideo.WriteCue | transcribe_video.py:29-34 | one pass of the loop appends exactly the cue's text to what was written |
| TranscribeVideo.ReportSaved | transcribe_video.py:35-37 | the printed output is the confirmation line followed by `SRT_OUTPUT_PATH:` and the path on a line of its own |
| TranscribeVideo.WriteSrtToPath | transcribe_video.py:24-37 | the file holds the SubRip document of all segments, and the output is the confirmation line then the marker line |
| TranscribeVideo.BuildTranscribeOptions | transcribe_video.py:103-105 | `task` and `fp16` are always present with the given values; `language` is present exactly for a non-empty language and holds it; no other key |
| MainProcess.PythonExecutable | main.js:94 | the interpreter is `python.exe` exactly on `win32`, and `python3` otherwise |
| MainProcess.HasLanguage | main.js:104 | defined by its body; properties in `MainProcess.BuildScriptArgs`, `Pipeline.LanguagePassedOn` |
| MainProcess.IsScriptArgs | main.js:96-106 | defined by its body; properties in `MainProcess.ScriptArgsOptions`, `Pipeline.ScriptArgsFields` |
| MainProcess.EchoCommand | main.js:108 | defined by its body; properties in `MainProcess.EchoQuotesEachArgument` |
| MainProcess.ScanChunk | main.js:118-121 | defined by its body; properties in `MainProcess.MarkerRoundTrip`, `MainProcess.CaptureTakesRestOfChunk`, `MainProcess.ScanStdout` |
| MainProcess.NextCapture | main.js:114-121 | defined by its body; properties in `MainProcess.CapturedNone`, `MainProcess.CapturedLastMarker` |
| MainProcess.CapturedPath | main.js:112-121 | defined by its body; properties in `MainProcess.CapturedNone`, `MainProcess.CapturedLastMarker`, `MainProcess.CapturedChunkBeforeQuiet` |
| MainProcess.EventMessages | main.js:114-143 | defined by its body; properties in `MainProcess.CloseMessages`, `MainProcess.OnEvent` |
| MainProcess.Transcript | main.js:114-143 | defined by its body; properties in `MainProcess.StartTranscription`, `Pipeline.PathReachesWindow`, `Pipeline.FailureLeavesDisplay` |
| MainProcess.BuildScriptArgs | main.js:96-106 | the vector is the script, the video, then output path, model and task flags; `--language` and the untrimmed language follow exactly when it is non-null and not blank; length 8 or 10 |
| MainProcess.ScriptArgsOptions | main.js:96-106 | read back as flag/value pairs, the vector gives the output path, model and task in that order, and the language last when it is passed on |
| MainProcess.Join | main.js:108 | defined by its body (`join` with a separator); properties in `MainProcess.JoinQuoted` |
| MainProcess.CodeText | main.js:135-137 | defined by its body (`${code}`, `null` included); properties in `MainProcess.CodeTextInjective` |
| MainProcess.JoinQuoted | main.js:108 | a space, a quote, the arguments joined by `" "`, and a closing quote wrap every argument in quotes after a space |
| MainProcess.EchoQuotesEachArgument | main.js:108 | the echoed line is the prefix, the interpreter, then each argument after a space and in double quotes, then a line feed |
| MainProcess.CapturedNone | main.js:112-121 | the captured path is null exactly when no stdout chunk holds the marker; stderr chunks are never scanned |
| MainProcess.CapturedLastMarker | main.js:112-121 | the last stdout chunk holding the marker decides the captured path; earlier ones are overwritten and later events leave it alone |
| MainProcess.CapturedChunkBeforeQuiet | main.js:114-121 | a chunk holding the marker that no later marker chunk follows gives the captured path |
| MainProcess.FirstMarkerAfter | main.js:120 | when the text before a marker holds none, `indexOf` finds that marker |
| MainProcess.MarkerRoundTrip | main.js:118-121 | a chunk ending in `SRT_OUTPUT_PATH:` + p + a line ending made only of whitespace (`\n` or `\r\n`), with no earlier marker, captures exactly p when p has no whitespace at either end |
| MainProcess.CaptureTakesRestOfChunk | main.js:120 | with more output after the marker's line and its line ending in the same chunk, the ending and that output are captured too, and the capture is not the path |
| MainProcess.CodeTextInjective | main.js:135-137 | distinct exit codes, `null` included, are rendered differently |
| MainProcess.CloseMessages | main.js:128-137 | two messages: completion carrying the captured path exactly for code 0, otherwise an error; then a log line |
| MainProcess.CloseErrorNamesCode | main.js:135 | two failed exits reported with the same error message had the same code |
| MainProcess.CloseLogNamesCode | main.js:137 | the log line sent after either outcome names the exit code: two exits with the same log line had the same code |
| MainProcess.ScanStdout | main.js:118-121 | the stdout scan replaces the captured path exactly when the chunk holds the marker |
| MainProcess.ReportClose | main.js:128-137 | the `close` callback sends the close messages for the code and the captured path |
| MainProcess.OnEvent | main.js:114-143 | each callback sends its event's messages: stdout verbatim, stderr with its prefix, close and error reports; only stdout updates the captured path |
| MainProcess.StartTranscription | main.js:84-143 | the interpreter and vector are as above; the window receives the echoed command first, then every event's messages in order, with the path captured so far |
| Renderer.FileName | renderer.js:53 | the file name is a separator-free suffix of the path that starts the path or follows its last `/` or `\` |
| Renderer.SrtFileName | renderer.js:54 | the name ends in `.srt`; before it comes the file name up to its last `.`, or nothing when the file name has no `.` |
| Renderer.OutputSrtPath | renderer.js:63 | defined by its body; properties in `Renderer.OutputSrtPathParts` |
| Renderer.OutputSrtPathParts | renderer.js:63 | the path is the directory, then `/` exactly when the directory holds a `/` and `\` otherwise, then the SubRip name, which is its file name |
| Renderer.LanguageArg | renderer.js:70 | an empty language is sent as null; any other is passed unchanged |
| Renderer.RequestForFields | renderer.js:53-72 | the request carries the video, model and task unchanged, an output path in the chosen directory named after the video, and null exactly for an empty language |
| Renderer.RequestFor | renderer.js:53-72 | defined by its body; properties in `Renderer.RequestForFields`, `Pipeline.RequestCommandLine` |
| Renderer.StartAnswer | renderer.js:37-74 | defined by its body; properties in `Renderer.StartChecks`, `Renderer.Window.StartClick` |
| Renderer.AfterStart | renderer.js:37-51 | defined by its body; properties in `Renderer.StartChecks`, `Renderer.Window.StartClick` |
| Renderer.AfterMessage | renderer.js:77-94 | defined by its body; properties in `Renderer.MessageEffects`, `Renderer.DisplayOnlyForPath` |
| Renderer.AfterMessages | renderer.js:77-94 | defined by its body; properties in `Renderer.MessagesAppendToLog`, `Renderer.BusyAfterMessages`, `Pipeline.AfterMessagesAppend` |
| Renderer.StartChecks | renderer.js:38-51 | a start is refused exactly when a selection is missing, the video checked first, and a refusal changes nothing; an accepted start sends the request, sets the busy flag, and leaves only the start line in the log and an empty path display |
| Renderer.MessageEffects | renderer.js:77-94 | every message only appends to the log and keeps the selections; completion and error clear the busy flag; output leaves the flag and the display alone |
| Renderer.CompletionLog | renderer.js:83-86 | defined by its body; properties in `Renderer.MessagesAppendToLog`, `Renderer.Window.OnTranscriptionComplete` |
| Renderer.Chosen | renderer.js:15-34 | defined by its body; properties in `Renderer.Window.SelectVideo`, `Renderer.Window.SelectOutputDir` |
| Renderer.DisplayOnlyForPath | renderer.js:84-86 | the path display changes only for a completion with a non-empty path, and then shows `SRT file saved: ` and that path |
| Renderer.MessagesAppendToLog | renderer.js:77-94 | a run of messages only appends to the log |
| Renderer.BusyAfterMessages | renderer.js:82-94 | after a run of messages the window is busy exactly when it was busy and no completion or error came |
| Renderer.Window.constructor | renderer.js:12-13 | both selections start empty and the button enabled |
| Renderer.Window.SelectVideo | renderer.js:15-24 | a chosen video path is remembered; a cancelled dialog clears it; nothing else changes |
| Renderer.Window.SelectOutputDir | renderer.js:26-35 | a chosen directory is remembered; a cancelled dialog clears it; nothing else changes |
| Renderer.Window.StartClick | renderer.js:37-75 | the new state and the answer are those of the start-click functions |
| Renderer.Window.OnScriptOutput | renderer.js:77-80 | the data is appended to the log |
| Renderer.Window.OnTranscriptionComplete | renderer.js:82-89 | the message is logged; a non-empty path is logged and displayed; the button is enabled |
| Renderer.Window.OnTranscriptionError | renderer.js:91-94 | the error is logged after `ERROR: ` and the button is enabled |
| Pipeline.LanguagePassedOn | renderer.js:70 | the chosen language reaches the worker exactly when it holds a non-whitespace character |
| Pipeline.RequestCommandLine | main.js:96-106 | an accepted request becomes a command line with the selected video, an output path in the selected directory named after the video, the model and the task, and `--language` with the untrimmed value exactly when it is not blank |
| Pipeline.AfterMessagesAppend | renderer.js:77-94 | delivering two runs of messages in turn is delivering them joined |
| Pipeline.MarkerChunk | transcribe_video.py:37 | a stdout chunk holding marker-free output and then the marker line, as Python's text-mode output writes it on Linux, macOS or Windows, announces exactly the path when it has no whitespace at either end |
| Pipeline.MarkerLineCaptured | transcribe_video.py:37 | the main process captures the path from such a chunk when no later chunk holds a marker |
| Pipeline.PathReachesWindow | main.js:128-133 | when the worker prints its marker line for a non-empty path, possibly after marker-free output in the same chunk, and exits with 0, the window displays that path and the button is enabled again |
| Pipeline.FailureLeavesDisplay | main.js:134-137 | a failed exit enables the button and leaves the path display as it was |

## Left out

- Timestamp.FormatTimestamp: takes whole milliseconds. `round(seconds * 1000.0)` on a float, with Python's round-half-to-even, is not modelled.
- SubRip.SrtRoundTrip: holds only for segments whose stripped text has no line feed. The line-based reader cannot split a multi-line cue.
- Renderer.Window.StartClick: requires the button to be enabled. A disabled button receives no clicks, which is the script's only guard against a second run.
- Pipeline.MarkerChunk: assumes the chunk decodes to the characters printed. The model has no bytes: on Windows, without Python's UTF-8 mode, a piped standard output is written in the ANSI code page while main.js:115 decodes UTF-8, so a path with non-ASCII characters is not captured as printed there; and on every platform a multi-byte character split across two chunks decodes to replacement characters.
- Pipeline.PathReachesWindow: assumes the marker's line ends its stdout chunk. Output without a marker may come before it in the chunk. The chunk boundaries are inputs here; how the operating system and Node split the stream is not modelled. It assumes, as `Pipeline.MarkerChunk` does, that the chunk decodes to the printed characters, which fails for non-ASCII paths on Windows. The path shown is the text the worker prints, which is pathlib's rendering of the requested output path (see `TranscribeVideo.WriteSrtToPath`), not necessarily the request's string.
- Pipeline.MarkerLineCaptured: on Windows, requires the path to hold no line feed, since the text-mode translation would turn one inside the path into a carriage return and a line feed. It assumes, as `Pipeline.MarkerChunk` does, that the chunk decodes to the printed characters, which fails for non-ASCII paths on Windows.
- TranscribeVideo.WriteSrtToPath: `srtFilePath` stands for the text of `Path(output_srt_path_str)` (transcribe_video.py:48, 110), as the two prints render it, not for the argument string. pathlib's normalisation is not modelled: it collapses doubled separators (the window's `C:\` + `\` + `v.srt` prints as `C:\v.srt`), drops `.` components, and on Windows turns `/` into `\`.
- TranscribeVideo.WriteSrtToPath: the file's text is the document with `\n` line ends. On Windows, Python's text-mode file writes `\r\n` for each of them; that translation is modelled only for standard output (`TranscribeVideo.TextModeOutput`), and `SubRip.SrtRoundTrip` reads the `\n` form.
- Spawning the worker, the stream callbacks and IPC sends are not modelled as I/O. The worker's output and exit are a given sequence of events, and what is sent is a returned sequence of messages.
- The script path `path.join(__dirname, 'transcribe_video.py')` is a parameter.
- The Electron window, the application lifecycle and the file and directory dialogs (main.js:7-81) are framework code. The dialogs' answers are parameters of the selection handlers.
- `preload.js` only forwards the IPC channels. The `Ipc` datatypes stand for them.
- DOM details are not modelled: the selection labels (`No file selected`, `No directory selected`), `alert` (only its text is returned), auto-scrolling of the log, and the page's initial texts (constructor parameters).
- In the worker, ffmpeg audio extraction, temporary files, Whisper model loading, torch device selection and fallback, and argument parsing with argparse are foreign libraries and I/O. The speech model's segments are an input.
- Creating the output directory and writing the file are not modelled. The model produces the file's text.
