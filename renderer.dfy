/**
 * The window's script (`renderer.js`): the two remembered selections, the
 * checks and derivations behind the start button, and the state the
 * handlers for the main process's messages update: the start button's
 * disabled flag, the log text and the SubRip path display.
 *
 * The DOM is reduced to the state it shows; `alert` becomes the refusal's
 * text, and the dialogs' answers are parameters.
 */
module Renderer {
  import opened Text
  import opened Ipc

  predicate IsSeparator(c: char) {
    c == '/' || c == '\\'
  }

  /**
   * The text after the last `/` or `\` of `path`, as `split(/[\\/]/).pop()`
   * gives it: a separator-free suffix that starts the path or follows a
   * separator.
   */
  function FileName(path: string): (name: string)
    ensures |name| <= |path| && path[|path| - |name|..] == name
    ensures forall i :: 0 <= i < |name| ==> !IsSeparator(name[i])
    ensures |name| < |path| ==> IsSeparator(path[|path| - |name| - 1])
  {
    if path == [] || IsSeparator(path[|path| - 1]) then []
    else FileName(path[..|path| - 1]) + [path[|path| - 1]]
  }

  /**
   * The file name up to, not including, its last `.`, followed by `.srt`;
   * a name without `.` gives just `.srt`, as `substring(0, -1)` is empty.
   */
  function SrtFileName(name: string): (srt: string)
    ensures |srt| >= 4 && srt[|srt| - 4..] == ".srt"
    ensures var stem := srt[..|srt| - 4];
      |stem| <= |name| && name[..|stem|] == stem
      && ((|stem| < |name| && name[|stem|] == '.' && forall i :: |stem| < i < |name| ==> name[i] != '.')
          || (stem == [] && forall i :: 0 <= i < |name| ==> name[i] != '.'))
  {
    match LastIndexOf(name, '.')
    case None => ".srt"
    case Some(i) => name[..i] + ".srt"
  }

  /** The directory, `/` when the directory already contains one and `\` otherwise, then the name. */
  function OutputSrtPath(dir: string, srtName: string): string
  {
    dir + (if '/' in dir then "/" else "\\") + srtName
  }

  /** The output path ends in a separator and the SubRip name, after the directory unchanged. */
  lemma OutputSrtPathParts(dir: string, srtName: string)
    requires forall i :: 0 <= i < |srtName| ==> !IsSeparator(srtName[i])
    ensures var p := OutputSrtPath(dir, srtName);
      |p| == |dir| + 1 + |srtName| && p[..|dir|] == dir
      && (p[|dir|] == '/' <==> '/' in dir) && IsSeparator(p[|dir|])
      && FileName(p) == srtName
  {
  }

  /** `languageSelect.value || null`: the empty selection becomes `null`. */
  function LanguageArg(value: string): (language: Option<string>)
    ensures language == None <==> value == ""
    ensures language.Some? ==> language.value == value
  {
    if value == "" then None else Some(value)
  }

  /** What a start click answers: the refusal's alert text, or the request sent to the main process. */
  datatype StartOutcome = Refused(alert: string) | Started(args: TranscriptionArgs)

  /** The request for a video and an output directory with the three selections. */
  function RequestFor(videoPath: string, outputDirPath: string, model: string, languageValue: string, task: string): TranscriptionArgs
  {
    TranscriptionArgs(videoPath, OutputSrtPath(outputDirPath, SrtFileName(FileName(videoPath))),
                      model, LanguageArg(languageValue), task)
  }

  /** The request names the video, the SubRip file beside its stem in the directory, and the selections. */
  lemma RequestForFields(videoPath: string, outputDirPath: string, model: string, languageValue: string, task: string)
    ensures var args := RequestFor(videoPath, outputDirPath, model, languageValue, task);
      args.videoPath == videoPath && args.model == model && args.task == task
      && args.outputSrtPath[..|outputDirPath|] == outputDirPath
      && FileName(args.outputSrtPath) == SrtFileName(FileName(videoPath))
      && (args.language == None <==> languageValue == "")
  {
    var srt := SrtFileName(FileName(videoPath));
    var stem := srt[..|srt| - 4];
    var name := FileName(videoPath);
    forall i | 0 <= i < |srt|
      ensures !IsSeparator(srt[i])
    {
      if i < |stem| {
        assert srt[i] == stem[i] == name[i];
      } else {
        assert srt[i] == srt[|srt| - 4..][i - |stem|];
      }
    }
    OutputSrtPathParts(outputDirPath, srt);
  }

  // ---------------------------------------------------------------------
  // The window's state
  // ---------------------------------------------------------------------

  /** A snapshot of what the handlers read and write. */
  datatype View = View(
    videoPath: string,
    outputDirPath: string,
    startDisabled: bool,
    log: string,
    srtPathDisplay: string)

  const StartLine: string := "Starting transcription process...\n"

  /** A selection dialog's answer: a chosen path is kept, a cancelled dialog clears the choice. */
  function Chosen(answer: Option<string>): string
  {
    match answer
    case None => ""
    case Some(p) => p
  }

  /** What the start click answers: the video is checked first, then the directory. */
  function StartAnswer(v: View, model: string, languageValue: string, task: string): StartOutcome
  {
    if v.videoPath == "" then Refused("Please select a video file.")
    else if v.outputDirPath == "" then Refused("Please select an output directory.")
    else Started(RequestFor(v.videoPath, v.outputDirPath, model, languageValue, task))
  }

  /** The window after the start click: unchanged when refused, reset and busy when accepted. */
  function AfterStart(v: View): View
  {
    if v.videoPath == "" || v.outputDirPath == "" then v
    else v.(log := StartLine, srtPathDisplay := "", startDisabled := true)
  }

  /** The completion handler's addition to the log. */
  function CompletionLog(message: string, srtPath: Option<string>): string
  {
    "\n" + message + "\n"
    + (if srtPath.Some? && srtPath.value != "" then "SRT Output Path: " + srtPath.value + "\n" else "")
  }

  /** The window after one message from the main process. */
  function AfterMessage(v: View, m: Message): View
  {
    match m
    case ScriptOutput(data) => v.(log := v.log + data)
    case TranscriptionComplete(message, srtPath) =>
      v.(log := v.log + CompletionLog(message, srtPath),
         srtPathDisplay := if srtPath.Some? && srtPath.value != "" then "SRT file saved: " + srtPath.value else v.srtPathDisplay,
         startDisabled := false)
    case TranscriptionError(error) =>
      v.(log := v.log + "\nERROR: " + error + "\n", startDisabled := false)
  }

  /** The window after a sequence of messages, in order. */
  function AfterMessages(v: View, ms: seq<Message>): View
    decreases |ms|
  {
    if ms == [] then v else AfterMessages(AfterMessage(v, ms[0]), ms[1..])
  }

  /**
   * A start is refused exactly when a selection is missing, the video
   * checked first, and a refusal changes nothing; an accepted start sends
   * the request, marks the window busy and leaves the log holding only the
   * start line and the path display empty.
   */
  lemma StartChecks(v: View, model: string, languageValue: string, task: string)
    ensures var w, outcome := AfterStart(v), StartAnswer(v, model, languageValue, task);
      (outcome.Refused? <==> v.videoPath == "" || v.outputDirPath == "")
      && (v.videoPath == "" ==> outcome.alert == "Please select a video file.")
      && (outcome.Refused? ==> w == v)
      && (outcome.Started? ==>
            outcome.args == RequestFor(v.videoPath, v.outputDirPath, model, languageValue, task)
            && w.startDisabled && w.log == StartLine && w.srtPathDisplay == ""
            && w.videoPath == v.videoPath && w.outputDirPath == v.outputDirPath)
  {
  }

  /**
   * Messages only append to the log and never touch the selections;
   * completion and error clear the busy flag and output leaves it alone.
   */
  lemma MessageEffects(v: View, m: Message)
    ensures var w := AfterMessage(v, m);
      |v.log| <= |w.log| && w.log[..|v.log|] == v.log
      && w.videoPath == v.videoPath && w.outputDirPath == v.outputDirPath
      && (m.ScriptOutput? ==> w.startDisabled == v.startDisabled && w.srtPathDisplay == v.srtPathDisplay)
      && (!m.ScriptOutput? ==> !w.startDisabled)
  {
  }

  /** The path display changes only for a completion carrying a non-empty path, and then shows that path. */
  lemma DisplayOnlyForPath(v: View, m: Message)
    ensures var w := AfterMessage(v, m);
      ((m.TranscriptionComplete? && m.srtPath.Some? && m.srtPath.value != "")
         ==> w.srtPathDisplay == "SRT file saved: " + m.srtPath.value)
      && (!(m.TranscriptionComplete? && m.srtPath.Some? && m.srtPath.value != "")
         ==> w.srtPathDisplay == v.srtPathDisplay)
  {
  }

  /** A run of messages also only appends to the log. */
  lemma {:induction false} MessagesAppendToLog(v: View, ms: seq<Message>)
    ensures var w := AfterMessages(v, ms);
      |v.log| <= |w.log| && w.log[..|v.log|] == v.log
      && w.videoPath == v.videoPath && w.outputDirPath == v.outputDirPath
    decreases |ms|
  {
    if ms != [] {
      var u := AfterMessage(v, ms[0]);
      MessageEffects(v, ms[0]);
      MessagesAppendToLog(u, ms[1..]);
      var w := AfterMessages(u, ms[1..]);
      assert w.log[..|v.log|] == w.log[..|u.log|][..|v.log|];
    }
  }

  /** After a run of messages the window is busy exactly when it was and no completion or error came. */
  lemma {:induction false} BusyAfterMessages(v: View, ms: seq<Message>)
    ensures AfterMessages(v, ms).startDisabled
      <==> v.startDisabled && forall i :: 0 <= i < |ms| ==> ms[i].ScriptOutput?
    decreases |ms|
  {
    if ms != [] {
      MessageEffects(v, ms[0]);
      BusyAfterMessages(AfterMessage(v, ms[0]), ms[1..]);
      assert forall i :: 1 <= i < |ms| ==> ms[i] == ms[1..][i - 1];
    }
  }

  /** The window's script, with the module-level variables and the elements' state as fields. */
  class Window {
    var currentVideoPath: string
    var currentOutputDirPath: string
    var startDisabled: bool
    var log: string
    var srtPathDisplay: string

    function Snapshot(): View
      reads this
    {
      View(currentVideoPath, currentOutputDirPath, startDisabled, log, srtPathDisplay)
    }

    /** Both selections start empty and the button enabled; the log and display start with the page's text. */
    constructor(initialLog: string, initialDisplay: string)
      ensures Snapshot() == View("", "", false, initialLog, initialDisplay)
    {
      currentVideoPath := "";
      currentOutputDirPath := "";
      startDisabled := false;
      log := initialLog;
      srtPathDisplay := initialDisplay;
    }

    /** The video button's handler, given the dialog's answer. */
    method SelectVideo(answer: Option<string>)
      modifies this
      ensures Snapshot() == old(Snapshot()).(videoPath := Chosen(answer))
    {
      if answer.Some? && answer.value != "" {
        currentVideoPath := answer.value;
      } else {
        currentVideoPath := "";
      }
    }

    /** The directory button's handler, given the dialog's answer. */
    method SelectOutputDir(answer: Option<string>)
      modifies this
      ensures Snapshot() == old(Snapshot()).(outputDirPath := Chosen(answer))
    {
      if answer.Some? && answer.value != "" {
        currentOutputDirPath := answer.value;
      } else {
        currentOutputDirPath := "";
      }
    }

    /**
     * The start button's handler; a disabled button receives no clicks.
     * Returns the alert shown or the request sent.
     */
    method StartClick(model: string, languageValue: string, task: string) returns (outcome: StartOutcome)
      requires !startDisabled
      modifies this
      ensures Snapshot() == AfterStart(old(Snapshot()))
      ensures outcome == StartAnswer(old(Snapshot()), model, languageValue, task)
    {
      ghost var before := Snapshot();
      if currentVideoPath == "" {
        outcome := Refused("Please select a video file.");
        assert Snapshot() == before;
      } else if currentOutputDirPath == "" {
        outcome := Refused("Please select an output directory.");
        assert Snapshot() == before;
      } else {
        log := "";
        srtPathDisplay := "";
        startDisabled := true;
        log := log + StartLine;
        assert Snapshot() == before.(log := StartLine, srtPathDisplay := "", startDisabled := true);
        outcome := Started(RequestFor(currentVideoPath, currentOutputDirPath, model, languageValue, task));
      }
    }

    /** The `script-output` handler. */
    method OnScriptOutput(data: string)
      modifies this
      ensures Snapshot() == AfterMessage(old(Snapshot()), ScriptOutput(data))
    {
      log := log + data;
    }

    /** The `transcription-complete` handler. */
    method OnTranscriptionComplete(message: string, srtPath: Option<string>)
      modifies this
      ensures Snapshot() == AfterMessage(old(Snapshot()), TranscriptionComplete(message, srtPath))
    {
      log := log + "\n" + message + "\n";
      if srtPath.Some? && srtPath.value != "" {
        srtPathDisplay := "SRT file saved: " + srtPath.value;
        log := log + "SRT Output Path: " + srtPath.value + "\n";
      }
      startDisabled := false;
    }

    /** The `transcription-error` handler. */
    method OnTranscriptionError(errorMsg: string)
      modifies this
      ensures Snapshot() == AfterMessage(old(Snapshot()), TranscriptionError(errorMsg))
    {
      log := log + "\nERROR: " + errorMsg + "\n";
      startDisabled := false;
    }
  }
}
