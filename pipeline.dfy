/**
 * The three processes together: the request the window builds becomes the
 * worker's command line, and the marker line the worker prints after
 * writing the SubRip file becomes the path the window shows.
 */
module Pipeline {
  import opened Text
  import opened Ipc
  import opened TranscribeVideo
  import opened MainProcess
  import opened Renderer

  /**
   * The language chosen in the window reaches the worker exactly when it
   * holds a character other than white space: the empty choice becomes
   * `null`, and a blank one is dropped by the main process's trim.
   */
  lemma LanguagePassedOn(languageValue: string)
    ensures HasLanguage(LanguageArg(languageValue))
      <==> exists i :: 0 <= i < |languageValue| && !IsJsSpace(languageValue[i])
  {
  }

  /**
   * An accepted start click leads to a command line naming the selected
   * video, an output path in the selected directory named after the video,
   * and the language, untrimmed, exactly when it is not blank.
   */
  lemma RequestCommandLine(videoPath: string, outputDirPath: string, model: string, languageValue: string,
                           task: string, scriptPath: string, argv: seq<string>)
    requires IsScriptArgs(argv, scriptPath, RequestFor(videoPath, outputDirPath, model, languageValue, task))
    ensures argv[0] == scriptPath && argv[1] == videoPath
    ensures argv[2] == "--output_srt_path" && outputDirPath <= argv[3]
    ensures FileName(argv[3]) == SrtFileName(FileName(videoPath))
    ensures argv[4] == "--model" && argv[5] == model && argv[6] == "--task" && argv[7] == task
    ensures |argv| == 10 <==> exists i :: 0 <= i < |languageValue| && !IsJsSpace(languageValue[i])
    ensures |argv| == 10 ==> argv[8] == "--language" && argv[9] == languageValue
  {
    var args := RequestFor(videoPath, outputDirPath, model, languageValue, task);
    RequestForFields(videoPath, outputDirPath, model, languageValue, task);
    LanguagePassedOn(languageValue);
    ScriptArgsFields(argv, scriptPath, args);
  }

  /** The positions of a command line, one by one. */
  lemma ScriptArgsFields(argv: seq<string>, scriptPath: string, args: TranscriptionArgs)
    requires IsScriptArgs(argv, scriptPath, args)
    ensures argv[0] == scriptPath && argv[1] == args.videoPath
    ensures argv[2] == "--output_srt_path" && argv[3] == args.outputSrtPath
    ensures argv[4] == "--model" && argv[5] == args.model && argv[6] == "--task" && argv[7] == args.task
    ensures |argv| == 10 <==> HasLanguage(args.language)
    ensures |argv| == 10 ==> argv[8] == "--language" && argv[9] == args.language.value
  {
  }

  /** Delivering two runs of messages one after the other is delivering them joined. */
  lemma {:induction false} AfterMessagesAppend(v: View, a: seq<Message>, b: seq<Message>)
    ensures AfterMessages(v, a + b) == AfterMessages(AfterMessages(v, a), b)
    decreases |a|
  {
    if a == [] {
      assert a + b == b;
    } else {
      assert (a + b)[1..] == a[1..] + b;
      AfterMessagesAppend(AfterMessage(v, a[0]), a[1..], b);
    }
  }

  /**
   * The main process captures the path from the worker's marker line, as it
   * reaches the pipe on the worker's platform, when the chunk holding it
   * starts with output without a marker (such as the confirmation line
   * printed just before) and no later chunk holds a marker.
   */
  lemma MarkerLineCaptured(before: seq<ProcessEvent>, prefix: string, p: string, platform: string,
                           after: seq<ProcessEvent>)
    requires IndexOf(prefix, SrtPathMarker).None?
    requires Stripped(p, IsJsSpace) && (platform == "win32" ==> '\n' !in p)
    requires forall i :: 0 <= i < |after| ==> !AnnouncesPath(after[i])
    ensures CapturedPath(before + [StdoutData(prefix + TextModeOutput(MarkerLine(p), platform))] + after) == Some(p)
  {
    var chunk := prefix + TextModeOutput(MarkerLine(p), platform);
    MarkerChunk(prefix, p, platform);
    CapturedChunkBeforeQuiet(before, chunk, after);
  }

  /** The chunk holding the marker line, as it reaches the pipe, announces the path. */
  lemma MarkerChunk(prefix: string, p: string, platform: string)
    requires IndexOf(prefix, SrtPathMarker).None?
    requires Stripped(p, IsJsSpace) && (platform == "win32" ==> '\n' !in p)
    ensures ScanChunk(prefix + TextModeOutput(MarkerLine(p), platform)) == Some(p)
  {
    var ending := if platform == "win32" then "\r\n" else "\n";
    assert TextModeOutput(MarkerLine(p), platform) == SrtPathMarker + p + ending by {
      if platform == "win32" {
        MarkerLineOutput(p, platform);
      }
    }
    assert prefix + TextModeOutput(MarkerLine(p), platform) == prefix + SrtPathMarker + p + ending;
    MarkerRoundTrip(prefix, p, ending);
  }

  /**
   * End to end: when the worker prints its marker line for a non-empty
   * path p, possibly in one chunk after marker-free output, and exits with
   * code 0, and no later chunk holds a marker, the window shows p as the
   * saved SubRip file and the start button is enabled again, whatever the
   * window showed before.
   */
  lemma PathReachesWindow(v: View, before: seq<ProcessEvent>, prefix: string, p: string, platform: string,
                          after: seq<ProcessEvent>)
    requires IndexOf(prefix, SrtPathMarker).None?
    requires p != [] && Stripped(p, IsJsSpace) && (platform == "win32" ==> '\n' !in p)
    requires forall i :: 0 <= i < |after| ==> !AnnouncesPath(after[i])
    ensures var chunk := prefix + TextModeOutput(MarkerLine(p), platform);
      var events := before + [StdoutData(chunk)] + after + [Close(Some(0))];
      var w := AfterMessages(v, Transcript(events));
      w.srtPathDisplay == "SRT file saved: " + p && !w.startDisabled
  {
    var run := before + [StdoutData(prefix + TextModeOutput(MarkerLine(p), platform))] + after;
    var events := run + [Close(Some(0))];
    MarkerLineCaptured(before, prefix, p, platform, after);
    assert events[..|events| - 1] == run;
    var closing := CloseMessages(Some(0), Some(p));
    assert Transcript(events) == Transcript(run) + closing;
    AfterMessagesAppend(v, Transcript(run), closing);
    var u := AfterMessages(v, Transcript(run));
    var u1 := AfterMessage(u, closing[0]);
    assert u1.srtPathDisplay == "SRT file saved: " + p && !u1.startDisabled;
    ClosingTwoSteps(u, closing);
    MessageEffects(u1, closing[1]);
  }

  /** Delivering the two messages of a `close` is delivering the first, then the second. */
  lemma ClosingTwoSteps(u: View, closing: seq<Message>)
    requires |closing| == 2
    ensures AfterMessages(u, closing) == AfterMessage(AfterMessage(u, closing[0]), closing[1])
  {
    var u1 := AfterMessage(u, closing[0]);
    var u2 := AfterMessage(u1, closing[1]);
    assert AfterMessages(u, closing) == AfterMessages(u1, closing[1..]);
    assert closing[1..][0] == closing[1] && closing[1..][1..] == [];
    assert AfterMessages(u1, closing[1..]) == AfterMessages(u2, []);
  }

  /** A run that ends with a failed exit leaves the window enabled and the shown path as it was. */
  lemma FailureLeavesDisplay(v: View, events: seq<ProcessEvent>, code: Option<int>)
    requires code != Some(0)
    ensures var w := AfterMessages(AfterMessages(v, Transcript(events)),
                                   EventMessages(Close(code), CapturedPath(events)));
      !w.startDisabled && w.srtPathDisplay == AfterMessages(v, Transcript(events)).srtPathDisplay
  {
    var u := AfterMessages(v, Transcript(events));
    var closing := CloseMessages(code, CapturedPath(events));
    ClosingTwoSteps(u, closing);
    MessageEffects(AfterMessage(u, closing[0]), closing[1]);
  }
}
