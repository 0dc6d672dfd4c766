/**
 * The messages exchanged between the window and the Electron main process
 * over the bridge the preload script exposes.
 */
module Ipc {
  import opened Text

  /** The `args` object of a `start-transcription` message; `None` stands for `null`. */
  datatype TranscriptionArgs = TranscriptionArgs(
    videoPath: string,
    outputSrtPath: string,
    model: string,
    language: Option<string>,
    task: string)

  /** A message the main process sends to the window, by channel. */
  datatype Message =
    | ScriptOutput(text: string)
    | TranscriptionComplete(message: string, srtPath: Option<string>)
    | TranscriptionError(error: string)
}
