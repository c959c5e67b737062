/** Types shared by the service, the CLI and the desktop front end (the `flowstt_common`
    crate), plus the Option and Result wrappers used for the source's optional values and
    error returns. */
module Common {

  datatype Option<+T> = None | Some(value: T)

  datatype Result<+T, +E> = Ok(value: T) | Err(error: E)

  /** How segments are delimited: by the speech gate, or by a held hotkey chord. */
  datatype TranscriptionMode = Automatic | PushToTalk

  /** How two capture sources are combined. */
  datatype RecordingMode = Mixed | EchoCancel

  /** Kind of capture source. `MixedSource` is the source's `AudioSourceType::Mixed`, renamed
      because `RecordingMode` already has a `Mixed`. */
  datatype AudioSourceType = Input | System | MixedSource

  /** One push-to-talk chord: the key codes, in the order they are listed. */
  datatype HotkeyCombination = HotkeyCombination(keys: seq<string>)
}
