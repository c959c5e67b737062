# flowstt core, modelled in Dafny

flowstt is a local speech-to-text tool. It has three parts:

- a desktop shell that captures audio;
- a command-line client that drives a background transcription service;
- a web front end that shows the service's state.

This project models the parts of that system that decide what happens to samples, to commands and to the screen.

**Audio** (`audio.dfy`, module `Audio`) models the shared capture state the audio callback updates once per batch:

- the capped recording buffer;
- the lock that may not be taken;
- which processors are handed the mono batch.

It also models two conversions:

- the channel downmix (averaging each chunk of `channels` interleaved samples);
- the linear-interpolation resampler that turns a finished recording into 16 kHz mono.

The state is a pair of classes (`AudioStreamState`, `RecordingState`); `ProcessAudioSamples` and `RecordingState.ProcessSamples` are tied to a pure per-batch function, `AfterBatch`. `SetProcessingEnabled`, `InitForCapture` and `MarkCaptureStopped` each state their new snapshot directly. The resampler is a method with a loop, proved equal to the specification function `Resampled`.

**Processor** (`processor.dfy`, module `Processor`) models the silence detector. It takes the RMS level of a batch in decibels and compares it with -40 dB. It logs the first classification, then every change. The detector is a class, and its `Process` method is tied to a pure state machine `Step`.

**Cli** (`cli.dfy`, module `Cli`) models the command-line client:

- its error type and exit codes (1 general, 64 usage);
- validation of configuration keys and modes;
- hotkey formatting;
- what each subcommand sends and returns.

A run of a command is a `Trace`. It records whether the command called `connect_or_spawn`, the requests sent in order, what was written to the configuration file (only when the write succeeded), the lines `config` printed, and the result. The service, the configuration file and JSON decoding are the parameters in `Env`.

**Frontend** (`frontend.dfy`, module `Frontend`) models the front end's view state:

- the key-name table;
- hotkey display names and the summary;
- the status line and the push-to-talk indicator;
- the event handlers, as a pure function from a `Ui` value and an event to the next `Ui`.

`Common` holds the shared value types. `Text` holds joining, decimal printing and substring search.

**Representation choices:**

- Samples are exact reals.
- An amplitude is kept as its square, and a decibel level as the power ratio it stands for. Square root and `20·log10` are strictly increasing, so the detector's comparison `db < threshold` is decided exactly: against -40 dB, a batch is silent exactly when its mean square is below 1/10000.

## Model

| member | source | states |
|---|---|---|
| Audio.RemainingCapacity | src-tauri/src/audio.rs:147 | saturating subtraction from the cap: recorded plus room is the cap while below it, and room is 0 at or past it |
| Audio.AppendRecording | src-tauri/src/audio.rs:146-152 | the buffer never passes the cap; it grows by exactly `min(batch length, remaining)`; old samples stay in place; the added samples are the front of the batch |
| Audio.RecordAllKeepsFirstSamples | src-tauri/src/audio.rs:35 | over a run of batches the buffer holds `min(total, 57,600,000)` samples, and they are the first samples delivered, in order |
| Audio.RecordAllFull | src-tauri/src/audio.rs:147-152 | a buffer at the cap takes no further samples, whatever arrives |
| Audio.AppendRecordingPrefix | src-tauri/src/audio.rs:146-152 | the buffer after one batch is a prefix of the old buffer followed by that batch and everything delivered later |
| Audio.ConvertToMonoCover | src-tauri/src/audio.rs:178-183 | chunks of `channels` samples cover the whole input, and the last chunk starts inside it |
| Audio.ConvertToMonoDrop | src-tauri/src/audio.rs:178-183 | output `k` is the first output of the downmix of the samples from chunk `k` on |
| Audio.ConvertToMonoFirst | src-tauri/src/audio.rs:178-183 | the first output is the sum of the first chunk, possibly short, divided by the channel count |
| Audio.ConvertToMonoShift | src-tauri/src/audio.rs:178-183 | past the first chunk, output `k` is output `k - 1` of the downmix of the rest |
| Audio.ConvertToMonoChunk | src-tauri/src/audio.rs:178-183 | output `k` is the average over the chunk starting `k` chunks in, cut short at the end of the input |
| Audio.ConvertToMonoChunkCount | src-tauri/src/audio.rs:178-183 | the downmix yields one sample per chunk: the chunks cover the input and the last one is not empty |
| Audio.ConvertToMonoLength | src-tauri/src/audio.rs:178-183 | the downmix has `ceil(len / channels)` samples |
| Audio.ConvertToMonoTail | src-tauri/src/audio.rs:178-183 | the first output is the first chunk's average; the downmix continues with the downmix of the rest |
| Audio.ConvertToMonoAt | src-tauri/src/audio.rs:178-183 | output `k` is the sum of chunk `k` divided by the full channel count; this includes a short trailing chunk |
| Audio.ConvertToMonoSingleChannel | src-tauri/src/audio.rs:178-183 | with one channel the downmix is the identity |
| Audio.ConvertToMonoEqualStereo | src-tauri/src/audio.rs:178-183 | a stereo frame whose two samples are equal downmixes to that sample |
| Audio.ResampleTo16kHz | src-tauri/src/audio.rs:201-234 | the loop's result is `Ok` of the specification `Resampled`; this covers the 16 kHz identity, the empty input at any rate (0 included) and the interpolation loop |
| Audio.ResampleEmpty | src-tauri/src/audio.rs:208-210 | an empty input resamples to an empty output at every rate, 0 included |
| Audio.ResampledLengthIsCeiling | src-tauri/src/audio.rs:212-213 | in exact arithmetic, the output length is `ceil(len * 16000 / rate)`, stated as exact integer bounds |
| Audio.SourceIndexIsFloor | src-tauri/src/audio.rs:217-219 | the source index is `floor(i * rate / 16000)`; the fraction lies in [0, 1) and is the exact remainder |
| Audio.SourceIndexInRange | src-tauri/src/audio.rs:212-224 | in exact arithmetic, every output position's source index lies inside the input, so the zero branch at line 227 never runs |
| Audio.ResampleIdentity | src-tauri/src/audio.rs:204-206 | at 16 kHz the samples come back unchanged |
| Audio.ResampledLengthLaw | src-tauri/src/audio.rs:208-213 | the output length is the ceiling law; an empty input gives an empty output |
| Audio.ResampledAt | src-tauri/src/audio.rs:216-231 | output `i` is the interpolated sample at position `i` |
| Audio.ConvexBetween | src-tauri/src/audio.rs:223 | an interpolation weight in [0, 1) gives a value between the two neighbours |
| Audio.InterpolatedSampleIsConvex | src-tauri/src/audio.rs:221-228 | an interior position is the weighted blend of its two neighbours and lies between them; the last position is the last sample |
| Audio.ResampledIsInterpolation | src-tauri/src/audio.rs:216-231 | in exact arithmetic, each output sample is the blend of, or equal to, an in-range input sample; it never comes from the zero branch |
| Audio.ResampledStartsWithFirstSample | src-tauri/src/audio.rs:216-225 | non-empty input gives non-empty output, whose first sample is the first input sample |
| Audio.ResampledLengthPositive | src-tauri/src/audio.rs:212-213 | a non-empty input gives at least one output sample |
| Audio.FirstInterpolatedSample | src-tauri/src/audio.rs:216-225 | output position 0 lies exactly on input sample 0, with fraction 0 |
| Audio.ProcessRecordedAudio | src-tauri/src/audio.rs:187-197 | a recording is downmixed when it has more than one channel, then resampled |
| Audio.ProcessedRecordingLength | src-tauri/src/audio.rs:187-197 | the converted length is the ceiling law applied to the number of frames |
| Audio.BatchRecording | src-tauri/src/audio.rs:144-152 | a batch appends exactly `min(len, room)` samples from its front, and only when the lock was taken and recording is on; the cap holds |
| Audio.ProcessorGating | src-tauri/src/audio.rs:155-173 | the visualisation processor gets the mono batch exactly when the lock was taken, monitoring is on and one is present; the speech processor needs processing enabled too |
| Audio.BatchFrame | src-tauri/src/audio.rs:143-175 | a batch changes only the buffer and the processors; without the lock it changes nothing |
| Audio.AudioStreamState.constructor | src-tauri/src/audio.rs:71-82 | the initial stream state, field by field |
| Audio.ProcessAudioSamples | src-tauri/src/audio.rs:137-175 | the new state is `AfterBatch` of the old state, and validity is kept |
| Audio.RecordingState.constructor | src-tauri/src/audio.rs:69-84 | a fresh shared state with the initial values |
| Audio.RecordingState.SetProcessingEnabled | src-tauri/src/audio.rs:98-107 | sets the flag; enabling installs a fresh detector at the stream's rate, or at 48000 when the rate is 0; disabling keeps the detector |
| Audio.RecordingState.InitForCapture | src-tauri/src/audio.rs:110-116 | sets rate, channels and source type, and marks the stream active; nothing else changes |
| Audio.RecordingState.MarkCaptureStopped | src-tauri/src/audio.rs:119-122 | clears the active flag only |
| Audio.RecordingState.ProcessSamples | src-tauri/src/audio.rs:126-128 | forwards to the per-batch step, with the same postcondition |
| Processor.DefaultThresholdIsTenThousandth | src-tauri/src/processor.rs:27 | -40 dB is the power ratio 1/10000, an RMS amplitude of 0.01 |
| Processor.SumOfSquaresZeroIff | src-tauri/src/processor.rs:38 | a sum of squares is non-negative, and zero exactly when every sample is zero |
| Processor.CalculateRms | src-tauri/src/processor.rs:34-40 | the RMS is never negative; its square is the mean square, and 0 for an empty batch |
| Processor.AmplitudeToDb | src-tauri/src/processor.rs:43-48 | an amplitude that is not positive is negative infinity, and only such an amplitude is; otherwise the level is finite |
| Processor.SilentIffQuiet | src-tauri/src/processor.rs:59-61 | against -40 dB, a batch is silent exactly when its mean square is below 1/10000 |
| Processor.ZeroBatchIsSilent | src-tauri/src/processor.rs:35-37 | an empty or all-zero batch is silent against any finite threshold |
| Processor.SoundHasFiniteLevel | src-tauri/src/processor.rs:38-47 | a batch with a non-zero sample has a finite level |
| Processor.StepLaw | src-tauri/src/processor.rs:64-79 | after a batch the detector is initialized and holds that batch's class; it logs exactly when it was uninitialized or the class changed; an unchanged class changes nothing |
| Processor.RunFromInitializedCountsChanges | src-tauri/src/processor.rs:72-79 | an initialized detector logs exactly one message per change of classification |
| Processor.FreshRunCountsChanges | src-tauri/src/processor.rs:64-79 | a new detector logs one initial message, plus one per change between neighbouring batches |
| Processor.RunEndsOnLastClass | src-tauri/src/processor.rs:64-79 | after a sequence of batches, the state is the last batch's class |
| Processor.SilenceDetector.constructor | src-tauri/src/processor.rs:24-31 | threshold -40 dB, silent, not initialized |
| Processor.SilenceDetector.Process | src-tauri/src/processor.rs:57-80 | the new flags and the logged message are `Step` applied to the old flags and to the batch's classification |
| Processor.SilenceDetector.Name | src-tauri/src/processor.rs:82-84 | the processor's name is "SilenceDetector" |
| Cli.General | src-cli/src/main.rs:161-163 | the message is kept, with exit code 1 |
| Cli.Usage | src-cli/src/main.rs:165-167 | the message is kept, with exit code 64 |
| Cli.FromMessage | src-cli/src/main.rs:170-180 | a plain error message becomes a general error |
| Cli.ExitStatus | src-cli/src/main.rs:183-189 | success exits 0; an error exits with its own code |
| Cli.ExitStatusOfErrors | src-cli/src/main.rs:148-189 | general errors exit 1 and usage errors exit 64; a plain message exits like a general error |
| Cli.ValidateConfigKey | src-cli/src/main.rs:636-646 | accepts exactly the two configuration keys; any other key is a usage error |
| Cli.ValidKeysListed | src-cli/src/main.rs:145 | the valid keys are listed as "transcription_mode, ptt_hotkeys" |
| Text.NatToString | src/main.ts:98 | a count prints as a decimal numeral: digits only, no leading zero |
| Text.DecimalRoundTrip | src/main.ts:98 | reading the printed count back gives the count |
| Text.DecimalIsPrinted | src/main.ts:98 | every decimal numeral is the printed form of the number it reads as, so the printed form is unique |
| Cli.UnknownKeyMessage | src-cli/src/main.rs:636-646 | the unknown-key message names the key and lists the valid keys, comma-separated |
| Cli.ModeName | src-cli/src/main.rs:672-673 | a mode prints as one of the two configuration values |
| Cli.ParseMode | src-cli/src/main.rs:743-752 | accepts exactly "automatic" and "push_to_talk"; anything else is a usage error |
| Cli.ModeRoundTrip | src-cli/src/main.rs:743-752 | parsing a mode printed as at lines 672-673 gives it back, and printing a parsed mode gives back the input |
| Cli.ModeNameInjective | src-cli/src/main.rs:672-673 | different modes print differently |
| Cli.StatusLabelIsNotAConfigValue | src-cli/src/main.rs:403-406 | `status` prints "push-to-talk", which `config set` (lines 743-752) rejects; "automatic" is accepted |
| Cli.DisplayAll | src-cli/src/main.rs:649-659 | one display string per combination, in order |
| Cli.FormatHotkeysDisplayLaw | src-cli/src/main.rs:649-659 | no hotkeys print "(none)", one prints as its display, and each further one appends ", " and its display |
| Cli.FormatHotkeysDisplayLength | src-cli/src/main.rs:649-659 | the printed length is the displays' total plus two characters per separator |
| Cli.Answer | src-cli/src/main.rs:251-252 | succeeds exactly on the expected response; a transport failure, an error response or any other response is a general error |
| Cli.RunConnected | src-cli/src/main.rs:212-581 | every command other than `config` and `version` has called `connect_or_spawn`, saves nothing and prints no `config` lines |
| Cli.ConfigValuesFor | src-cli/src/main.rs:611-633 | without a service the file's values are used and nothing is sent; failures are general errors |
| Cli.Persist | src-cli/src/main.rs:754-771 | with a running service, one request is sent and the file is not written; without one, nothing is sent and the new values are written; a failed write leaves the file unwritten and fails with "Failed to save config: " and the reason; failures are general errors |
| Cli.HandleConfig | src-cli/src/main.rs:598-607 | `config` never calls `connect_or_spawn`, and without a running service it sends no request |
| Cli.Run | src-cli/src/main.rs:192-210 | `version` prints only its version line (not modelled) and succeeds; `version` and `config` do not call `connect_or_spawn`; every other command does |
| Cli.FilterType | src-cli/src/main.rs:213-216 | a `list` filter asks for input or system devices, never for mixed sources, and input exactly for the input filter |
| Cli.ListSendsOneQuery | src-cli/src/main.rs:212-221 | `list` sends one device query, unfiltered exactly when no filter was given and never for mixed sources |
| Cli.TranscribeSendsSetupThenSources | src-cli/src/main.rs:262-312 | sends echo cancellation (when asked for), then the recording mode, then the sources, last; succeeds exactly when the sources are accepted and the event client connects and subscribes |
| Cli.TranscribeIgnoresSetupReplies | src-cli/src/main.rs:275-293 | the outcome depends only on the reply to the sources request, not on the setup replies |
| Cli.TranscribeNeedsASource | src-cli/src/main.rs:262-267 | with no source nothing is sent and the command fails with exit 1; once connected, it fails with the no-source message |
| Cli.StopClearsSources | src-cli/src/main.rs:436-454 | `stop` sends cleared sources and succeeds exactly on an ok reply |
| Cli.ServiceCommandsFailGenerally | src-cli/src/main.rs:205-581 | every failure outside `config` exits 1 |
| Cli.AlreadyDownloadedIsSuccess | src-cli/src/main.rs:470-480 | a download error counts as success exactly when its message contains "already downloaded" |
| Cli.ConfigSetRejectsBadInput | src-cli/src/main.rs:730-790 | an unknown key, an invalid mode or undecodable hotkeys is a usage error; nothing is sent, saved or printed |
| Cli.ConfigSetMode | src-cli/src/main.rs:742-779 | setting a mode sends it to a running service; without one, it writes it with the stored hotkeys kept, and succeeds exactly when the write does; the confirmation line is printed only after success and only when not quiet |
| Cli.ConfigGetThenSetRoundTrip | src-cli/src/main.rs:697-771 | without a running service, what `config get transcription_mode` prints, given to `config set`, writes back the same configuration when the write succeeds, and writes nothing when it fails |
| Cli.ConfigShowLines | src-cli/src/main.rs:662-684 | without a running service, `config show` prints the mode line and the hotkeys line from the file, and succeeds |
| Frontend.KeyDisplayName | src/main.ts:71-92 | a listed key code shows its table name; any other code shows itself; the result is non-empty for a non-empty code |
| Frontend.KeyNames | src/main.ts:92 | one name per key, in order |
| Frontend.HotkeyDisplayNameLaw | src/main.ts:91-93 | no keys show nothing, one key shows its name, and each further key appends " + " and its name |
| Frontend.HotkeyDisplayNameExamples | src/main.ts:71-93 | the default chord shows "Right Alt"; left control with left alt shows "Left Ctrl + Left Alt"; an unlisted code shows itself |
| Frontend.HotkeysDisplaySummary | src/main.ts:95-99 | no hotkeys show "None", one shows its name, and more start with the first one's name |
| Frontend.SummaryCountsTheRest | src/main.ts:95-99 | with several hotkeys, the summary is the first name followed by " (+n more)"; `n` is a decimal numeral (digits only, no leading zero) that reads as the number of the others |
| Frontend.StatusDisplay | src/main.ts:187-205 | the status is normal exactly when not capturing, and progress exactly when capturing |
| Frontend.StatusDisplayDependsOn | src/main.ts:187-205 | the status line is decided by capture, the speech segment, the queue depth and the mode, and not by the push-to-talk key |
| Frontend.StatusListeningTexts | src/main.ts:194-202 | while work is pending, the line is "Listening... (n pending)" with `n` the queue depth as a decimal numeral; otherwise it is "Listening... [PTT Ready (summary)]" in push-to-talk mode and "Listening... [Auto (VAD)]" in automatic mode |
| Frontend.StatusTextSignature | src/main.ts:187-205 | the four phases' texts differ in their third or fourteenth character |
| Frontend.StatusTextsDistinct | src/main.ts:187-205 | states in different phases (idle, speech, pending work, listening) show different texts |
| Frontend.UpdatePttIndicator | src/main.ts:556-571 | hidden exactly outside push-to-talk; active exactly in push-to-talk with the key held; a hidden indicator keeps its tooltip |
| Frontend.PttIndicatorCases | src/main.ts:556-571 | the active and ready tooltips, built from the hotkey summary; automatic mode hides the indicator |
| Frontend.RemoveFirst | src/main.ts:444-452 | removing an id that is present shortens the history by one; an absent id leaves it unchanged |
| Frontend.RemoveFirstRemovesFirstMatch | src/main.ts:444-452 | it is the first entry with that id that goes; the others stay in order |
| Frontend.HandleEvent | src/main.ts:221-314 | no event changes the hotkeys or the queue depth |
| Frontend.HandlersSetFlags | src/main.ts:236-307 | each handler sets exactly its own flag: speech start and end, capture, push-to-talk press and release, mode |
| Frontend.TranscriptionAppendsHistory | src/main.ts:221-230 | a finished transcription with an id and a timestamp appends exactly that entry; otherwise nothing changes |
| Frontend.CaptureErrorShown | src/main.ts:253-277 | a capture error is shown as "Error: " followed by the message, as a failure |
| Frontend.EventsKeepScreenInSync | src/main.ts:221-314 | every event except a capture error keeps the status line and the indicator in step with the state |

## Left out

- Floating point: `f32`/`f64` arithmetic is replaced by exact arithmetic on reals, so rounding is not modelled. The `as usize` truncation is modelled as the floor of an exact real, and `f32::NEG_INFINITY` as a separate value. Square root and `log10` are represented by their squares and power ratios rather than computed.
- The mutex and threads: `try_lock` becomes the parameter `lockAcquired`. The `lock().unwrap()` calls are taken to succeed.
- What the visualisation and speech processors compute, and the events they emit through the app handle:
  - each is modelled as the list of mono batches it was handed;
  - the `AppHandle` argument passed at audio.rs:164 and 171 does not appear in the `process(&mut self, samples)` signature at processor.rs:6; the model follows the call sites and drops the handle.
- The `AudioProcessor` interface (processor.rs:1-10) is not a Dafny trait. `SilenceDetector` carries its two operations, `Process` and `Name`.
- Audio.ResampleTo16kHz: requires a source rate above 0 or an empty input. The stream state starts with rate 0 (audio.rs:73), and an empty input at that rate returns `Ok([])` before the rate is used (audio.rs:208-210), as modelled. For a non-empty input at rate 0 the source divides by a zero ratio: the output length is infinite, `ceil() as usize` saturates, and `Vec::with_capacity` panics. A panic is not modelled.
- Audio.ResampleTo16kHz: the length and index bounds hold in exact arithmetic only. In `f64`, `len as f64 / ratio` can land just above an integer, and the computed length is then one above the exact ceiling. For example, at 37800 Hz with 567 samples, `567.0 / 2.3625` is 240.00000000000003, so the source makes 241 outputs, not 240. For the extra last position, `240.0 * ratio` is exactly 567.0, so the index equals the length and the source appends 0.0 from audio.rs:227. The model on reals makes 240 outputs and never takes that branch.
- Audio.ProcessRecordedAudio: requires a source rate above 0 or an empty recording, for the same reason: it hands the recording to the resampler.
- The getters `is_recording`, `is_monitoring`, `is_processing_enabled` and `get_state` (audio.rs:86-96, 131-133) just read `Snapshot()` fields.
- RecordingState: shares one `AudioStreamState` object, with no `Arc` reference counting.
- CLI output formatting:
  - coloured terminal output;
  - the device, status, model, GPU and ping reports;
  - the `--format json` output.
  Only the `config` lines are modelled.
- Cli.RunConnected: the event loop after `transcribe` starts is not modelled. That covers printing events, Ctrl-C and the final stop/capture messages (main.rs:314-378). The trace ends once the event stream is subscribed.
- Cli.Run: argument parsing (clap), spawning the service and the socket protocol are represented by `Env.connect`, `Env.serve`, `Env.ping`, `Env.eventConnect` and `Env.subscribe`.
- Configuration storage is the pair `Env.stored`/`Env.save`. That covers the configuration file's location, its serde format and the fields `config` does not touch. JSON decoding of hotkeys is `Env.parseHotkeys`, and a combination's display string is `Env.display`.
- Frontend:
  - the DOM, the waveform renderer, the Tauri `invoke`/`listen` bridge and start-up loading of status and push-to-talk settings;
  - null checks on missing elements;
  - JavaScript prototype keys (such as `constructor`) in the `KEY_DISPLAY_NAMES` lookup, which the model treats as unlisted codes;
  - the visualisation-data event.
- Frontend.HandleEvent: a capture error replaces the status line until the next refresh, so `EventsKeepScreenInSync` excludes that one event.
- The service (`src-service`), the tray, the build script and the `flowstt_common` crate beyond the types used here are not part of this model.
