/**
 * The Python worker `transcribe_video.py` around the speech model: the loop
 * that writes the SubRip file, the lines it prints afterwards (the last one
 * is the marker the Electron main process looks for), and the keyword
 * arguments handed to the model.
 */
module TranscribeVideo {
  import opened Decimal
  import opened Text
  import opened Timestamp
  import opened SubRip

  /** The confirmation line printed once the file is written. */
  function SavedLine(srtFilePath: string): string
  {
    "SRT file saved to: " + srtFilePath + "\n"
  }

  /** The line the worker prints so that the Electron main process learns the output path. */
  function MarkerLine(srtFilePath: string): string
  {
    "SRT_OUTPUT_PATH:" + srtFilePath + "\n"
  }

  /**
   * What reaches the pipe for `text` printed by the worker: Python's
   * text-mode standard output writes each line feed as a carriage return
   * and a line feed on Windows and leaves the text alone elsewhere.
   */
  function TextModeOutput(text: string, platform: string): (out: string)
    ensures platform != "win32" || '\n' !in text ==> out == text
    ensures |out| >= |text|
  {
    if platform != "win32" || text == [] then text
    else
      var rest := TextModeOutput(text[1..], platform);
      if text[0] == '\n' then "\r\n" + rest
      else
        assert '\n' !in text ==> rest == text[1..] by {
          if '\n' !in text {
            assert forall c :: c in text[1..] ==> c in text;
          }
        }
        [text[0]] + rest
  }

  /** Output of two texts printed one after the other is the two outputs joined. */
  lemma {:induction false} TextModeOutputAppend(a: string, b: string, platform: string)
    ensures TextModeOutput(a + b, platform) == TextModeOutput(a, platform) + TextModeOutput(b, platform)
    decreases |a|
  {
    if platform != "win32" || a == [] {
      assert a + b == b || platform != "win32";
    } else {
      assert (a + b)[0] == a[0] && (a + b)[1..] == a[1..] + b;
      TextModeOutputAppend(a[1..], b, platform);
    }
  }

  /**
   * The marker line as it reaches the pipe, for a path without a line feed:
   * the marker, the path, then the platform's line ending.
   */
  lemma MarkerLineOutput(srtFilePath: string, platform: string)
    requires '\n' !in srtFilePath
    ensures TextModeOutput(MarkerLine(srtFilePath), platform)
      == "SRT_OUTPUT_PATH:" + srtFilePath + (if platform == "win32" then "\r\n" else "\n")
  {
    var head := "SRT_OUTPUT_PATH:" + srtFilePath;
    assert MarkerLine(srtFilePath) == head + "\n";
    assert '\n' !in head by {
      assert forall i :: 0 <= i < |srtFilePath| ==> head[16 + i] == srtFilePath[i];
    }
    TextModeOutputAppend(head, "\n", platform);
    if platform == "win32" {
      assert TextModeOutput("\n", platform) == "\r\n" + TextModeOutput("", platform);
    }
  }

  /** The document for the first `i + 1` segments extends the one for the first `i` by cue `i + 1`. */
  lemma SrtTextStep(segments: seq<Segment>, i: nat)
    requires i < |segments|
    ensures SrtText(segments[..i]) + CueText(i + 1, segments[i]) == SrtText(segments[..i + 1])
  {
    assert segments[..i + 1] == segments[..i] + [segments[i]];
    SrtCuesSnoc(segments[..i], segments[i], 1);
  }

  /** The three writes of one cue add that cue's four lines. */
  lemma CueWrites(before: string, n: string, startTime: string, endTime: string, text: string)
    ensures var afterIndex := before + n + "\n";
      var afterTiming := afterIndex + startTime + " --> " + endTime + "\n";
      afterTiming + text + "\n\n" == before + JoinLines([n, startTime + " --> " + endTime, text, ""])
  {
    JoinFourLines(n, startTime + " --> " + endTime, text, "");
  }

  /** One pass of the writing loop: the index line, the timing line, then the stripped text and a blank line. */
  method WriteCue(fileText: string, index: nat, segment: Segment) returns (written: string)
    ensures written == fileText + CueText(index, segment)
  {
    var startTime := FormatTimestamp(segment.start);
    var endTime := FormatTimestamp(segment.end);
    var text := PyStrip(segment.text);
    CueWrites(fileText, NatToString(index), startTime, endTime, text);
    written := fileText + NatToString(index) + "\n";
    written := written + startTime + " --> " + endTime + "\n";
    written := written + text + "\n\n";
  }

  /** The two lines printed after the file is closed: the confirmation, then the marker. */
  method ReportSaved(srtFilePath: string) returns (printed: string)
    ensures printed == SavedLine(srtFilePath) + MarkerLine(srtFilePath)
  {
    printed := SavedLine(srtFilePath);
    printed := printed + MarkerLine(srtFilePath);
  }

  /**
   * `write_srt_to_path`: writes the cues one segment at a time, numbered
   * from 1, then prints the confirmation line and the marker line. Returns
   * the file's text and what went to standard output.
   */
  method WriteSrtToPath(segments: seq<Segment>, srtFilePath: string) returns (fileText: string, printed: string)
    ensures fileText == SrtText(segments)
    ensures printed == SavedLine(srtFilePath) + MarkerLine(srtFilePath)
  {
    fileText := "";
    var i := 0;
    while i < |segments|
      invariant i <= |segments|
      invariant fileText == SrtText(segments[..i])
    {
      SrtTextStep(segments, i);
      fileText := WriteCue(fileText, i + 1, segments[i]);
      i := i + 1;
    }
    assert fileText == SrtText(segments) by {
      assert segments[..i] == segments;
    }
    printed := ReportSaved(srtFilePath);
  }

  // ---------------------------------------------------------------------
  // Options for the speech model
  // ---------------------------------------------------------------------

  /** A value in the keyword-argument dictionary. */
  datatype OptionValue = Str(s: string) | Bool(b: bool)

  /**
   * `transcribe_options`: `task` and `fp16` always, `language` only for a
   * truthy language (present and non-empty).
   */
  method BuildTranscribeOptions(task: string, fp16: bool, language: Option<string>)
    returns (options: map<string, OptionValue>)
    ensures "task" in options && options["task"] == Str(task)
    ensures "fp16" in options && options["fp16"] == Bool(fp16)
    ensures "language" in options <==> language.Some? && language.value != ""
    ensures "language" in options ==> options["language"] == Str(language.value)
    ensures options.Keys <= {"task", "fp16", "language"}
  {
    options := map["task" := Str(task), "fp16" := Bool(fp16)];
    if language.Some? && language.value != "" {
      options := options["language" := Str(language.value)];
    }
  }
}
