/**
 * The `start-transcription` handler of the Electron main process
 * (`main.js`): the worker's command line, the command echoed to the window,
 * the relay of the worker's output while standard output is watched for the
 * SubRip path marker, and the reports sent when the worker exits or cannot
 * be started.
 *
 * Spawning the process and the IPC `send` calls are not modelled as I/O: the
 * worker's behaviour is a given sequence of process events, and what the
 * handler sends is returned as a sequence of messages.
 */
module MainProcess {
  import opened Decimal
  import opened Text
  import opened Ipc

  /** The interpreter started for the worker. */
  function PythonExecutable(platform: string): (exe: string)
    ensures exe == "python.exe" || exe == "python3"
    ensures exe == "python.exe" <==> platform == "win32"
  {
    if platform == "win32" then "python.exe" else "python3"
  }

  /** A language is passed on when it is present and not blank once trimmed. */
  predicate HasLanguage(language: Option<string>) {
    language.Some? && JsTrim(language.value) != ""
  }

  /**
   * The worker's command line: the script, the video, the output path, the
   * model and the task, then `--language` and the untrimmed language when
   * one is passed on.
   */
  predicate IsScriptArgs(argv: seq<string>, scriptPath: string, args: TranscriptionArgs) {
    |argv| == (if HasLanguage(args.language) then 10 else 8)
    && argv[..8] == [scriptPath, args.videoPath, "--output_srt_path", args.outputSrtPath,
                     "--model", args.model, "--task", args.task]
    && (HasLanguage(args.language) ==> argv[8..] == ["--language", args.language.value])
  }

  /** `scriptArgs`: the fixed eight arguments, extended in place with the language pair. */
  method BuildScriptArgs(scriptPath: string, args: TranscriptionArgs) returns (scriptArgs: seq<string>)
    ensures IsScriptArgs(scriptArgs, scriptPath, args)
  {
    scriptArgs := [scriptPath, args.videoPath, "--output_srt_path", args.outputSrtPath,
                   "--model", args.model, "--task", args.task];
    if args.language.Some? && JsTrim(args.language.value) != "" {
      scriptArgs := scriptArgs + ["--language", args.language.value];
    }
  }

  /** The arguments from position `from` on, read as flag/value pairs. */
  function OptionPairs(argv: seq<string>, from: nat): seq<(string, string)>
    decreases |argv| - from
  {
    if from + 1 >= |argv| then []
    else [(argv[from], argv[from + 1])] + OptionPairs(argv, from + 2)
  }

  /** The options a reader of the worker's command line finds after the script and the video. */
  function Options(argv: seq<string>): seq<(string, string)>
  {
    OptionPairs(argv, 2)
  }

  /**
   * Read back, the command line names the script and the video in that
   * order, then the output path, the model and the task as options, and the
   * language last when it is passed on.
   */
  lemma ScriptArgsOptions(argv: seq<string>, scriptPath: string, args: TranscriptionArgs)
    requires IsScriptArgs(argv, scriptPath, args)
    ensures argv[0] == scriptPath && argv[1] == args.videoPath
    ensures Options(argv) ==
      [("--output_srt_path", args.outputSrtPath), ("--model", args.model), ("--task", args.task)]
      + (if HasLanguage(args.language) then [("--language", args.language.value)] else [])
  {
    var fixed := argv[..8];
    assert argv[0] == fixed[0] && argv[1] == fixed[1] && argv[2] == fixed[2] && argv[3] == fixed[3];
    assert argv[4] == fixed[4] && argv[5] == fixed[5] && argv[6] == fixed[6] && argv[7] == fixed[7];
    var rest := OptionPairs(argv, 8);
    if HasLanguage(args.language) {
      assert argv[8] == argv[8..][0] && argv[9] == argv[8..][1];
      assert OptionPairs(argv, 10) == [];
      assert rest == [("--language", args.language.value)];
    } else {
      assert rest == [];
    }
    assert OptionPairs(argv, 6) == [("--task", args.task)] + rest;
    assert OptionPairs(argv, 4) == [("--model", args.model)] + OptionPairs(argv, 6);
  }

  /** JavaScript's `parts.join(sep)`. */
  function Join(parts: seq<string>, sep: string): string
  {
    if parts == [] then ""
    else if |parts| == 1 then parts[0]
    else parts[0] + sep + Join(parts[1..], sep)
  }

  /** The line echoed to the window before the worker is started. */
  function EchoCommand(exe: string, scriptArgs: seq<string>): string
  {
    "准备执行: " + exe + " \"" + Join(scriptArgs, "\" \"") + "\"\n"
  }

  /** Each argument in double quotes, each preceded by one space. */
  function QuotedEach(parts: seq<string>): string
  {
    if parts == [] then "" else " \"" + parts[0] + "\"" + QuotedEach(parts[1..])
  }

  lemma {:induction false} JoinQuoted(parts: seq<string>)
    requires parts != []
    ensures " \"" + Join(parts, "\" \"") + "\"" == QuotedEach(parts)
    decreases |parts|
  {
    if |parts| > 1 {
      JoinQuoted(parts[1..]);
      var rest := Join(parts[1..], "\" \"");
      assert " \"" + (parts[0] + "\" \"" + rest) + "\""
        == " \"" + parts[0] + "\"" + (" \"" + rest + "\"");
    }
  }

  /**
   * The echoed command is the executable followed by every argument, in
   * order, in double quotes and separated by single spaces.
   */
  lemma EchoQuotesEachArgument(exe: string, scriptArgs: seq<string>)
    requires scriptArgs != []
    ensures EchoCommand(exe, scriptArgs) == "准备执行: " + exe + QuotedEach(scriptArgs) + "\n"
  {
    JoinQuoted(scriptArgs);
    var j := Join(scriptArgs, "\" \"");
    assert "准备执行: " + exe + " \"" + j + "\"\n" == "准备执行: " + exe + (" \"" + j + "\"") + "\n";
  }

  // ---------------------------------------------------------------------
  // The worker's events and the captured SubRip path
  // ---------------------------------------------------------------------

  /** What the worker process reports, in the order the callbacks run. */
  datatype ProcessEvent =
    | StdoutData(data: string)
    | StderrData(data: string)
      /** The `close` event; `None` is the `null` code of a process ended by a signal. */
    | Close(code: Option<int>)
      /** The `error` event, with the error's message. */
    | Failed(message: string)

  const SrtPathMarker: string := "SRT_OUTPUT_PATH:"

  /** The path a stdout chunk announces: the trimmed rest of the chunk after its first marker. */
  function ScanChunk(output: string): Option<string>
  {
    match IndexOf(output, SrtPathMarker)
    case None => None
    case Some(i) => Some(JsTrim(output[i + |SrtPathMarker|..]))
  }

  /** `srtFileGeneratedPath` after one more event. */
  function NextCapture(event: ProcessEvent, captured: Option<string>): Option<string>
  {
    if event.StdoutData? && ScanChunk(event.data).Some? then ScanChunk(event.data) else captured
  }

  /** `srtFileGeneratedPath` once the callbacks for `events` have run; it starts as `null`. */
  function CapturedPath(events: seq<ProcessEvent>): Option<string>
  {
    if events == [] then None
    else NextCapture(events[|events| - 1], CapturedPath(events[..|events| - 1]))
  }

  /** The event is a stdout chunk holding the marker. */
  predicate AnnouncesPath(event: ProcessEvent) {
    event.StdoutData? && Includes(event.data, SrtPathMarker)
  }

  /** Nothing is captured exactly when no stdout chunk holds the marker; stderr is never scanned. */
  lemma {:induction false} CapturedNone(events: seq<ProcessEvent>)
    ensures CapturedPath(events) == None <==> forall i :: 0 <= i < |events| ==> !AnnouncesPath(events[i])
    decreases |events|
  {
    if events != [] {
      var init := events[..|events| - 1];
      CapturedNone(init);
      assert forall i :: 0 <= i < |init| ==> init[i] == events[i];
    }
  }

  /**
   * The last stdout chunk holding the marker decides the captured path:
   * earlier chunks are overwritten and later events leave it unchanged.
   */
  lemma {:induction false} CapturedLastMarker(events: seq<ProcessEvent>, k: nat)
    requires k < |events| && AnnouncesPath(events[k])
    requires forall j :: k < j < |events| ==> !AnnouncesPath(events[j])
    ensures CapturedPath(events) == ScanChunk(events[k].data)
    decreases |events|
  {
    if k < |events| - 1 {
      var init := events[..|events| - 1];
      assert init[k] == events[k];
      assert forall j :: k < j < |init| ==> init[j] == events[j];
      CapturedLastMarker(init, k);
    }
  }

  /** A chunk holding the marker, followed only by events without one, decides the captured path. */
  lemma CapturedChunkBeforeQuiet(before: seq<ProcessEvent>, chunk: string, after: seq<ProcessEvent>)
    requires ScanChunk(chunk).Some?
    requires forall i :: 0 <= i < |after| ==> !AnnouncesPath(after[i])
    ensures CapturedPath(before + [StdoutData(chunk)] + after) == ScanChunk(chunk)
  {
    var events := before + [StdoutData(chunk)] + after;
    assert events[|before|] == StdoutData(chunk);
    forall j | |before| < j < |events|
      ensures !AnnouncesPath(events[j])
    {
      assert events[j] == after[j - |before| - 1];
    }
    CapturedLastMarker(events, |before|);
  }

  /** In the marker, `:` is the last character and only there; it has no space or line feed. */
  lemma MarkerShape()
    ensures |SrtPathMarker| == 16
    ensures forall i :: 0 <= i < 15 ==> SrtPathMarker[i] != ':'
    ensures forall i :: 0 <= i < 16 ==> SrtPathMarker[i] != ' ' && SrtPathMarker[i] != '\n'
  {
  }

  /** The first marker in `prefix + SrtPathMarker + rest` is the one placed there when `prefix` has none. */
  lemma FirstMarkerAfter(prefix: string, rest: string)
    requires IndexOf(prefix, SrtPathMarker).None?
    ensures IndexOf(prefix + SrtPathMarker + rest, SrtPathMarker) == Some(|prefix|)
  {
    var s := prefix + SrtPathMarker + rest;
    MarkerShape();
    assert s[|prefix|..|prefix| + 16] == SrtPathMarker;
    assert OccursAt(s, SrtPathMarker, |prefix|);
    forall j | 0 <= j < |prefix|
      ensures !OccursAt(s, SrtPathMarker, j)
    {
      if j + 16 <= |prefix| {
        assert s[j..j + 16] == prefix[j..j + 16];
        assert !OccursAt(prefix, SrtPathMarker, j);
      } else {
        assert s[j + 15] == SrtPathMarker[j + 15 - |prefix|];
        assert j + 16 <= |s| ==> s[j..j + 16][15] == s[j + 15];
      }
    }
  }

  /**
   * Print/parse round trip with the worker's marker line: a chunk holding
   * `SRT_OUTPUT_PATH:` + p + a line ending made of white space (a line
   * feed, or a carriage return and a line feed on Windows), after text
   * without a marker, announces exactly p, provided p has no white space at
   * either end.
   */
  lemma MarkerRoundTrip(prefix: string, p: string, ending: string)
    requires IndexOf(prefix, SrtPathMarker).None?
    requires Stripped(p, IsJsSpace)
    requires forall i :: 0 <= i < |ending| ==> IsJsSpace(ending[i])
    ensures ScanChunk(prefix + SrtPathMarker + p + ending) == Some(p)
  {
    var s := prefix + SrtPathMarker + p + ending;
    assert s == prefix + SrtPathMarker + (p + ending);
    FirstMarkerAfter(prefix, p + ending);
    assert s[|prefix| + |SrtPathMarker|..] == p + ending;
    StripPadded(p, ending, IsJsSpace);
  }

  /**
   * What the handler does when more output shares the marker's chunk: the
   * whole rest of the chunk is captured, the line ending and the later
   * output included, not just the marker's line.
   */
  lemma CaptureTakesRestOfChunk(p: string, ending: string, later: string)
    requires p != [] && Stripped(p, IsJsSpace)
    requires later != [] && Stripped(later, IsJsSpace)
    ensures ScanChunk(SrtPathMarker + p + ending + later) == Some(p + ending + later)
    ensures ScanChunk(SrtPathMarker + p + ending + later) != Some(p)
  {
    var r := p + ending + later;
    assert SrtPathMarker + p + ending + later == SrtPathMarker + r;
    assert Stripped(r, IsJsSpace) by {
      assert r[0] == p[0] && r[|r| - 1] == later[|later| - 1];
    }
    StripIdentity(r, IsJsSpace);
    assert ScanChunk(SrtPathMarker + r) == Some(JsTrim(r)) by {
      FirstMarkerAfter([], r);
      assert [] + SrtPathMarker + r == SrtPathMarker + r;
      assert (SrtPathMarker + r)[|SrtPathMarker|..] == r;
    }
    assert |r| > |p|;
  }

  // ---------------------------------------------------------------------
  // Messages sent to the window
  // ---------------------------------------------------------------------

  /** The exit code as a template literal prints it. */
  function CodeText(code: Option<int>): string
  {
    match code
    case None => "null"
    case Some(c) => IntToString(c)
  }

  lemma CodeTextInjective(a: Option<int>, b: Option<int>)
    requires CodeText(a) == CodeText(b)
    ensures a == b
  {
    if a.Some? && b.Some? {
      IntToStringInjective(a.value, b.value);
    }
  }

  /**
   * The `close` callback: completion carrying the captured path for exit
   * code 0, otherwise an error naming the code; then, either way, a log line
   * with the code.
   */
  function CloseMessages(code: Option<int>, captured: Option<string>): (msgs: seq<Message>)
    ensures |msgs| == 2
    ensures msgs[0].TranscriptionComplete? <==> code == Some(0)
    ensures msgs[0].TranscriptionComplete? ==> msgs[0].srtPath == captured
    ensures msgs[0].TranscriptionError? <==> code != Some(0)
    ensures msgs[1].ScriptOutput?
  {
    [ if code == Some(0) then TranscriptionComplete("转录过程成功完成。", captured)
      else TranscriptionError("Python 脚本执行失败，退出代码: " + CodeText(code)),
      ScriptOutput("\nPython 脚本已退出，代码: " + CodeText(code) + "\n") ]
  }

  /** The failure report names the exit code: two exits reported alike had the same code. */
  lemma CloseErrorNamesCode(a: Option<int>, b: Option<int>, capturedA: Option<string>, capturedB: Option<string>)
    requires CloseMessages(a, capturedA)[0].TranscriptionError?
    requires CloseMessages(a, capturedA)[0] == CloseMessages(b, capturedB)[0]
    ensures a == b
  {
    var prefix := "Python 脚本执行失败，退出代码: ";
    assert (prefix + CodeText(a))[|prefix|..] == CodeText(a);
    assert (prefix + CodeText(b))[|prefix|..] == CodeText(b);
    CodeTextInjective(a, b);
  }

  /** The log line sent after either outcome names the exit code: two exits logged alike had the same code. */
  lemma CloseLogNamesCode(a: Option<int>, b: Option<int>, capturedA: Option<string>, capturedB: Option<string>)
    requires CloseMessages(a, capturedA)[1] == CloseMessages(b, capturedB)[1]
    ensures a == b
  {
    var prefix := "\nPython 脚本已退出，代码: ";
    var lineA := prefix + CodeText(a) + "\n";
    var lineB := prefix + CodeText(b) + "\n";
    assert lineA[|prefix|..|lineA| - 1] == CodeText(a);
    assert lineB[|prefix|..|lineB| - 1] == CodeText(b);
    CodeTextInjective(a, b);
  }

  /** The messages one event makes the handler send, given the path captured so far. */
  function EventMessages(event: ProcessEvent, captured: Option<string>): seq<Message>
  {
    match event
    case StdoutData(output) => [ScriptOutput(output)]
    case StderrData(data) => [ScriptOutput("错误输出 (stderr): " + data)]
    case Close(code) => CloseMessages(code, captured)
    case Failed(message) =>
      [TranscriptionError("启动 Python 脚本失败: " + message), ScriptOutput("启动 Python 脚本错误: " + message + "\n")]
  }

  /** Everything the callbacks send for `events`, in order. */
  function Transcript(events: seq<ProcessEvent>): seq<Message>
  {
    if events == [] then []
    else Transcript(events[..|events| - 1]) + EventMessages(events[|events| - 1], CapturedPath(events[..|events| - 1]))
  }

  /** The stdout callback's scan: a chunk holding the marker replaces the captured path. */
  method ScanStdout(output: string, captured: Option<string>) returns (srtFileGeneratedPath: Option<string>)
    ensures srtFileGeneratedPath == NextCapture(StdoutData(output), captured)
  {
    srtFileGeneratedPath := captured;
    if Includes(output, SrtPathMarker) {
      var at := IndexOf(output, SrtPathMarker).value;
      srtFileGeneratedPath := Some(JsTrim(output[at + |SrtPathMarker|..]));
    }
  }

  /** The `close` callback's two messages. */
  method ReportClose(code: Option<int>, srtFileGeneratedPath: Option<string>) returns (sent: seq<Message>)
    ensures sent == CloseMessages(code, srtFileGeneratedPath)
  {
    if code == Some(0) {
      sent := [TranscriptionComplete("转录过程成功完成。", srtFileGeneratedPath)];
    } else {
      sent := [TranscriptionError("Python 脚本执行失败，退出代码: " + CodeText(code))];
    }
    sent := sent + [ScriptOutput("\nPython 脚本已退出，代码: " + CodeText(code) + "\n")];
  }

  /**
   * The four callbacks: stdout is forwarded verbatim and scanned for the
   * marker; stderr is forwarded with a prefix; `close` and `error` report.
   */
  method OnEvent(event: ProcessEvent, captured: Option<string>) returns (sent: seq<Message>, srtFileGeneratedPath: Option<string>)
    ensures sent == EventMessages(event, captured)
    ensures srtFileGeneratedPath == NextCapture(event, captured)
  {
    srtFileGeneratedPath := captured;
    match event {
      case StdoutData(output) =>
        sent := [ScriptOutput(output)];
        srtFileGeneratedPath := ScanStdout(output, captured);
      case StderrData(data) =>
        sent := [ScriptOutput("错误输出 (stderr): " + data)];
      case Close(code) =>
        sent := ReportClose(code, srtFileGeneratedPath);
      case Failed(message) =>
        sent := [TranscriptionError("启动 Python 脚本失败: " + message)];
        sent := sent + [ScriptOutput("启动 Python 脚本错误: " + message + "\n")];
    }
  }

  /**
   * The `start-transcription` handler for one request: picks the
   * interpreter, builds the command line, echoes it, then relays the
   * worker's events. Returns the interpreter and arguments the worker is
   * started with and every message sent to the window.
   */
  method StartTranscription(platform: string, scriptPath: string, args: TranscriptionArgs, events: seq<ProcessEvent>)
    returns (executable: string, scriptArgs: seq<string>, sent: seq<Message>)
    ensures executable == PythonExecutable(platform)
    ensures IsScriptArgs(scriptArgs, scriptPath, args)
    ensures sent == [ScriptOutput(EchoCommand(executable, scriptArgs))] + Transcript(events)
  {
    executable := PythonExecutable(platform);
    scriptArgs := BuildScriptArgs(scriptPath, args);
    sent := [ScriptOutput(EchoCommand(executable, scriptArgs))];
    var srtFileGeneratedPath: Option<string> := None;
    var i := 0;
    while i < |events|
      invariant i <= |events|
      invariant srtFileGeneratedPath == CapturedPath(events[..i])
      invariant sent == [ScriptOutput(EchoCommand(executable, scriptArgs))] + Transcript(events[..i])
    {
      assert events[..i + 1][..i] == events[..i];
      var more;
      more, srtFileGeneratedPath := OnEvent(events[i], srtFileGeneratedPath);
      sent := sent + more;
      i := i + 1;
    }
    assert events[..i] == events;
  }
}
