/** The command-line client: its error type and exit codes, configuration-key and mode
    validation, hotkey formatting, and the requests each command sends to the background service.

    The service, the socket client, the configuration file and JSON decoding are not modelled;
    `Env` stands for what they answer. A run of a command is a `Trace`: whether it called
    `connect_or_spawn`, the requests it sent in order, what it wrote to the configuration file,
    the lines `config` printed, and the result `main` turns into the exit status. */
module Cli {
  import opened Common
  import opened Text

  // ---------------------------------------------------------------------------------------
  // Errors and exit codes
  // ---------------------------------------------------------------------------------------

  /** An error with the exit code the process ends with. */
  datatype CliError = CliError(message: string, exitCode: int)

  const GeneralExitCode: int := 1
  const UsageExitCode: int := 64

  /** A general failure. */
  function General(message: string): (e: CliError)
    ensures e.message == message && e.exitCode == GeneralExitCode
  {
    CliError(message, GeneralExitCode)
  }

  /** Bad input on the command line. */
  function Usage(message: string): (e: CliError)
    ensures e.message == message && e.exitCode == UsageExitCode
  {
    CliError(message, UsageExitCode)
  }

  /** Conversion of a bare message (owned or borrowed) into an error: a general failure. */
  function FromMessage(message: string): (e: CliError)
    ensures e.exitCode == GeneralExitCode && e.message == message
  {
    General(message)
  }

  /** The process exit status for the result of a run: the error's code on failure, 0 when
      the run returns normally. */
  function ExitStatus(r: Result<(), CliError>): (status: int)
    ensures r.Err? ==> status == r.error.exitCode
    ensures r.Ok? ==> status == 0
  {
    if r.Err? then r.error.exitCode else 0
  }

  /** General errors exit with 1 and usage errors with 64, so a failing run never exits with 0. */
  lemma ExitStatusOfErrors(message: string)
    ensures ExitStatus(Err(General(message))) == 1
    ensures ExitStatus(Err(Usage(message))) == 64
    ensures ExitStatus(Err(FromMessage(message))) == ExitStatus(Err(General(message)))
  {
  }

  // ---------------------------------------------------------------------------------------
  // Configuration keys, modes and hotkeys
  // ---------------------------------------------------------------------------------------

  const ValidConfigKeys: seq<string> := ["transcription_mode", "ptt_hotkeys"]

  /** Accept a recognised configuration key; reject any other with a usage error naming the
      valid keys. */
  function ValidateConfigKey(key: string): (r: Result<(), CliError>)
    ensures r.Ok? <==> key == "transcription_mode" || key == "ptt_hotkeys"
    ensures r.Err? ==> r.error.exitCode == UsageExitCode
  {
    if key in ValidConfigKeys then Ok(())
    else Err(Usage("Unknown configuration key '" + key + "'. Valid keys: " + Join(ValidConfigKeys, ", ")))
  }

  /** The valid keys, as the rejection lists them. */
  lemma ValidKeysListed()
    ensures Join(ValidConfigKeys, ", ") == "transcription_mode, ptt_hotkeys"
  {
    assert ValidConfigKeys[1..] == ["ptt_hotkeys"];
    calc {
      Join(ValidConfigKeys, ", ");
      "transcription_mode" + ", " + Join(["ptt_hotkeys"], ", ");
      "transcription_mode" + ", " + "ptt_hotkeys";
    }
  }

  /** The rejection names the key and lists both valid keys separated by ", ". */
  lemma UnknownKeyMessage(key: string)
    requires key != "transcription_mode" && key != "ptt_hotkeys"
    ensures ValidateConfigKey(key)
         == Err(Usage("Unknown configuration key '" + key + "'. Valid keys: " + "transcription_mode, ptt_hotkeys"))
  {
    assert key !in ValidConfigKeys;
    ValidKeysListed();
  }

  /** A mode as `config show`, `config get` and `config set` spell it. */
  function ModeName(mode: TranscriptionMode): (name: string)
    ensures name == "automatic" || name == "push_to_talk"
  {
    match mode
    case Automatic => "automatic"
    case PushToTalk => "push_to_talk"
  }

  /** A mode as `status` spells it. */
  function StatusModeLabel(mode: TranscriptionMode): string
  {
    match mode
    case Automatic => "automatic"
    case PushToTalk => "push-to-talk"
  }

  /** The value of `config set transcription_mode`: one of the two mode names, anything else a
      usage error. */
  function ParseMode(value: string): (r: Result<TranscriptionMode, CliError>)
    ensures r.Ok? <==> value == "automatic" || value == "push_to_talk"
    ensures r.Err? ==> r.error.exitCode == UsageExitCode
  {
    if value == "automatic" then Ok(Automatic)
    else if value == "push_to_talk" then Ok(PushToTalk)
    else Err(Usage("Invalid value '" + value + "' for transcription_mode. Expected: automatic, push_to_talk"))
  }

  /** Printing a mode and parsing it back gives the mode, and a value that parses is the name of
      the mode it parses to. */
  lemma ModeRoundTrip(mode: TranscriptionMode, value: string)
    ensures ParseMode(ModeName(mode)) == Ok(mode)
    ensures ParseMode(value).Ok? ==> ModeName(ParseMode(value).value) == value
  {
  }

  /** The two modes have distinct names. */
  lemma ModeNameInjective(m1: TranscriptionMode, m2: TranscriptionMode)
    ensures ModeName(m1) == ModeName(m2) ==> m1 == m2
  {
  }

  /** The push-to-talk label that `status` prints is not a value `config set` accepts. */
  lemma StatusLabelIsNotAConfigValue()
    ensures ParseMode(StatusModeLabel(PushToTalk)).Err?
    ensures ParseMode(StatusModeLabel(Automatic)) == Ok(Automatic)
  {
  }

  /** Display of each combination, in order. */
  function DisplayAll(hotkeys: seq<HotkeyCombination>, display: HotkeyCombination -> string): (names: seq<string>)
    ensures |names| == |hotkeys|
    ensures forall i :: 0 <= i < |hotkeys| ==> names[i] == display(hotkeys[i])
  {
    seq(|hotkeys|, i requires 0 <= i < |hotkeys| => display(hotkeys[i]))
  }

  /** Hotkeys for people: "(none)" when there are none, otherwise each combination's display
      joined by ", ". The display of one combination comes from the shared types, which are not
      part of this model, so it is a parameter. */
  function FormatHotkeysDisplay(hotkeys: seq<HotkeyCombination>, display: HotkeyCombination -> string): string
  {
    if |hotkeys| == 0 then "(none)" else Join(DisplayAll(hotkeys, display), ", ")
  }

  /** No hotkeys read "(none)"; one reads as its display; one more appends ", " and its display,
      so the combinations appear in their order. */
  lemma FormatHotkeysDisplayLaw(hotkeys: seq<HotkeyCombination>, h: HotkeyCombination, display: HotkeyCombination -> string)
    ensures FormatHotkeysDisplay([], display) == "(none)"
    ensures FormatHotkeysDisplay([h], display) == display(h)
    ensures |hotkeys| > 0 ==>
      FormatHotkeysDisplay(hotkeys + [h], display) == FormatHotkeysDisplay(hotkeys, display) + ", " + display(h)
  {
    if |hotkeys| > 0 {
      assert DisplayAll(hotkeys + [h], display) == DisplayAll(hotkeys, display) + [display(h)];
      JoinSnoc(DisplayAll(hotkeys, display), display(h), ", ");
    }
  }

  /** A non-empty list reads as its displays plus one ", " per gap. */
  lemma FormatHotkeysDisplayLength(hotkeys: seq<HotkeyCombination>, display: HotkeyCombination -> string)
    requires |hotkeys| > 0
    ensures |FormatHotkeysDisplay(hotkeys, display)| == TotalLength(DisplayAll(hotkeys, display)) + 2 * (|hotkeys| - 1)
  {
    JoinLength(DisplayAll(hotkeys, display), ", ");
  }

  // ---------------------------------------------------------------------------------------
  // Commands, requests and replies
  // ---------------------------------------------------------------------------------------

  datatype ModelAction = Download

  datatype ConfigAction = Show | Get(key: string) | Set(key: string, value: string)

  /** The `--source` filter of `list`: input devices or system devices. */
  datatype SourceFilter = InputDevices | SystemDevices

  /** The device kind a `list` filter asks the service for. */
  function FilterType(filter: SourceFilter): (kind: AudioSourceType)
    ensures kind != MixedSource
    ensures kind == Input <==> filter == InputDevices
  {
    match filter
    case InputDevices => Input
    case SystemDevices => System
  }

  /** The subcommands. */
  datatype Command =
    | List(source: Option<SourceFilter>)
    | Transcribe(source1: Option<string>, source2: Option<string>, aec: bool, mode: RecordingMode)
    | Status
    | Stop
    | Model(action: Option<ModelAction>)
    | Gpu
    | Config(configAction: ConfigAction)
    | Ping
    | Shutdown
    | Version

  /** Requests the client sends to the service. */
  datatype Request =
    | ListDevices(sourceType: Option<AudioSourceType>)
    | SetAecEnabled(enabled: bool)
    | SetRecordingMode(recordingMode: RecordingMode)
    | SetSources(source1Id: Option<string>, source2Id: Option<string>)
    | GetStatus
    | DownloadModel
    | GetModelStatus
    | GetCudaStatus
    | ShutdownService
    | GetConfig
    | SetTranscriptionMode(transcriptionMode: TranscriptionMode)
    | SetPushToTalkHotkeys(hotkeys: seq<HotkeyCombination>)

  /** The persisted values `config` reads and writes. */
  datatype ConfigValues = ConfigValues(transcriptionMode: TranscriptionMode, pttHotkeys: seq<HotkeyCombination>)

  /** Responses, with payloads the client only prints left abstract. `EventReport` is a pushed
      event, which only the event loop after `transcribe` reads; as the answer to a request it
      is an unexpected response like any other. */
  datatype Response =
    | OkResponse
    | ErrorResponse(message: string)
    | Devices
    | StatusReport
    | ModelStatusReport
    | CudaStatusReport
    | ConfigValuesReport(values: ConfigValues)
    | EventReport

  /** What a request gets back: a transport failure, or a response. */
  datatype Reply = TransportError(reason: string) | Got(response: Response)

  /** What the outside world answers during one run. */
  datatype Env = Env(
    connect: Result<(), string>,          // connecting the command client, spawning the service if needed
    serve: Request -> Reply,              // the service's reply to each request
    eventConnect: Result<(), string>,     // connecting the separate event client
    subscribe: Result<(), string>,        // subscribing it to events
    ping: Result<bool, string>,           // the client's liveness probe
    serviceAvailable: bool,               // whether `config` reaches a running service
    stored: ConfigValues,                 // the configuration file's contents
    save: Result<(), string>,             // writing the configuration file
    parseHotkeys: string -> Result<seq<HotkeyCombination>, string>,  // JSON decoding of hotkeys
    display: HotkeyCombination -> string) // display of one combination

  /** One run: whether the command client called `connect_or_spawn`, which connects to the
      service and spawns it if needed; the requests sent in order; what was written to the
      configuration file, only when the write succeeded; the lines `config` printed; and the
      result. `config` never calls `connect_or_spawn`: it tries a plain connection, whose
      outcome is `Env.serviceAvailable`, and sends its requests only to an already running
      service. */
  datatype Trace = Trace(
    connected: bool,
    requests: seq<Request>,
    saved: Option<ConfigValues>,
    output: seq<string>,
    result: Result<(), CliError>)

  /** The result of a request whose only accepted answer is the response `expected` picks out:
      a transport failure or an error response becomes a general error carrying its message,
      any other response "Unexpected response". */
  function Answer(reply: Reply, expected: Response -> bool): (r: Result<(), CliError>)
    ensures r.Err? ==> r.error.exitCode == GeneralExitCode
    ensures r.Ok? <==> reply.Got? && !reply.response.ErrorResponse? && expected(reply.response)
  {
    match reply
    case TransportError(reason) => Err(FromMessage(reason))
    case Got(ErrorResponse(message)) => Err(FromMessage(message))
    case Got(response) => if expected(response) then Ok(()) else Err(FromMessage("Unexpected response"))
  }

  const NoSourceMessage: string := "At least one audio source is required. Use 'flowstt list' to see devices."

  /** The requests `transcribe` sends, in order: echo cancellation on when asked for, then the
      recording mode, then the sources, which starts capture. */
  function TranscribeRequests(source1: Option<string>, source2: Option<string>, aec: bool, mode: RecordingMode): seq<Request>
  {
    (if aec then [SetAecEnabled(true)] else []) + [SetRecordingMode(mode), SetSources(source1, source2)]
  }

  /** A command against a connected client. The replies to the echo-cancellation and
      recording-mode requests of `transcribe` are ignored; once the sources are accepted, a
      second client subscribes to events and streams them until capture ends. */
  function RunConnected(cmd: Command, env: Env): (t: Trace)
    requires !cmd.Config? && !cmd.Version?
    ensures t.connected && t.saved.None? && t.output == []
  {
    match cmd
    case List(source) =>
      var req := ListDevices(if source.None? then None else Some(FilterType(source.value)));
      Trace(true, [req], None, [], Answer(env.serve(req), (r: Response) => r.Devices?))
    case Transcribe(source1, source2, aec, mode) =>
      if source1.None? && source2.None? then
        Trace(true, [], None, [], Err(FromMessage(NoSourceMessage)))
      else
        var reqs := TranscribeRequests(source1, source2, aec, mode);
        var started := Answer(env.serve(SetSources(source1, source2)), (r: Response) => r.OkResponse?);
        var result :=
          if started.Err? then started
          else if env.eventConnect.Err? then Err(FromMessage("Failed to connect event client: " + env.eventConnect.error))
          else if env.subscribe.Err? then Err(FromMessage("Failed to subscribe: " + env.subscribe.error))
          else Ok(());
        Trace(true, reqs, None, [], result)
    case Status =>
      Trace(true, [GetStatus], None, [], Answer(env.serve(GetStatus), (r: Response) => r.StatusReport?))
    case Stop =>
      var req := SetSources(None, None);
      Trace(true, [req], None, [], Answer(env.serve(req), (r: Response) => r.OkResponse?))
    case Model(action) =>
      if action.Some? then
        var reply := env.serve(DownloadModel);
        var result :=
          if reply.Got? && reply.response.ErrorResponse? && Contains(reply.response.message, "already downloaded")
          then Ok(())
          else Answer(reply, (r: Response) => r.OkResponse?);
        Trace(true, [DownloadModel], None, [], result)
      else
        Trace(true, [GetModelStatus], None, [], Answer(env.serve(GetModelStatus), (r: Response) => r.ModelStatusReport?))
    case Gpu =>
      Trace(true, [GetCudaStatus], None, [], Answer(env.serve(GetCudaStatus), (r: Response) => r.CudaStatusReport?))
    case Ping =>
      var result :=
        match env.ping
        case Ok(alive) => if alive then Ok(()) else Err(FromMessage("Service not responding"))
        case Err(reason) => Err(FromMessage(reason));
      Trace(true, [], None, [], result)
    case Shutdown =>
      Trace(true, [ShutdownService], None, [], Answer(env.serve(ShutdownService), (r: Response) => r.OkResponse?))
  }

  /** The configuration values `config show` and `config get` work from: asked of the service
      when it is reachable, read from the file otherwise. Returns the requests sent too. */
  function ConfigValuesFor(env: Env): (r: (seq<Request>, Result<ConfigValues, CliError>))
    ensures r.1.Err? ==> r.1.error.exitCode == GeneralExitCode
    ensures !env.serviceAvailable ==> r == ([], Ok(env.stored))
  {
    if env.serviceAvailable then
      var values :=
        match env.serve(GetConfig)
        case TransportError(reason) => Err(FromMessage(reason))
        case Got(ConfigValuesReport(values)) => Ok(values)
        case Got(ErrorResponse(message)) => Err(General(message))
        case Got(_) => Err(General("Unexpected response from service"));
      ([GetConfig], values)
    else
      ([], Ok(env.stored))
  }

  /** Persist one update: through the service when it is reachable, into the file otherwise
      (keeping the file's other value). A failed write leaves the file as it was. */
  function Persist(req: Request, offline: ConfigValues, env: Env): (t: Trace)
    ensures t.output == [] && !t.connected
    ensures t.result.Err? ==> t.result.error.exitCode == GeneralExitCode
    ensures env.serviceAvailable ==> t.requests == [req] && t.saved.None?
    ensures !env.serviceAvailable ==> t.requests == []
    ensures !env.serviceAvailable && env.save.Ok? ==> t.saved == Some(offline) && t.result.Ok?
    ensures !env.serviceAvailable && env.save.Err? ==>
      t.saved.None? && t.result == Err(General("Failed to save config: " + env.save.error))
  {
    if env.serviceAvailable then
      var result :=
        match env.serve(req)
        case TransportError(reason) => Err(FromMessage(reason))
        case Got(OkResponse) => Ok(())
        case Got(ErrorResponse(message)) => Err(General(message))
        case Got(_) => Err(General("Unexpected response"));
      Trace(false, [req], None, [], result)
    else
      if env.save.Err? then Trace(false, [], None, [], Err(General("Failed to save config: " + env.save.error)))
      else Trace(false, [], Some(offline), [], Ok(()))
  }

  /** The `config` subcommands, which use a running service when there is one and the
      configuration file otherwise. */
  function HandleConfig(action: ConfigAction, quiet: bool, env: Env): (t: Trace)
    ensures !t.connected
    ensures !env.serviceAvailable ==> t.requests == []
  {
    match action
    case Show =>
      var (reqs, values) := ConfigValuesFor(env);
      if values.Err? then Trace(false, reqs, None, [], Err(values.error))
      else
        var v := values.value;
        Trace(false, reqs, None,
              ["transcription_mode: " + ModeName(v.transcriptionMode),
               "ptt_hotkeys: " + FormatHotkeysDisplay(v.pttHotkeys, env.display)],
              Ok(()))
    case Get(key) =>
      var valid := ValidateConfigKey(key);
      if valid.Err? then Trace(false, [], None, [], Err(valid.error))
      else
        var (reqs, values) := ConfigValuesFor(env);
        if values.Err? then Trace(false, reqs, None, [], Err(values.error))
        else
          var v := values.value;
          var line := if key == "transcription_mode" then ModeName(v.transcriptionMode)
                      else FormatHotkeysDisplay(v.pttHotkeys, env.display);
          Trace(false, reqs, None, [line], Ok(()))
    case Set(key, value) =>
      var valid := ValidateConfigKey(key);
      if valid.Err? then Trace(false, [], None, [], Err(valid.error))
      else if key == "transcription_mode" then
        var parsed := ParseMode(value);
        if parsed.Err? then Trace(false, [], None, [], Err(parsed.error))
        else
          var mode := parsed.value;
          var t := Persist(SetTranscriptionMode(mode), env.stored.(transcriptionMode := mode), env);
          var line := if t.result.Ok? && !quiet then ["Set transcription_mode = " + value] else [];
          t.(output := line)
      else
        var decoded := env.parseHotkeys(value);
        if decoded.Err? then
          Trace(false, [], None, [],
                Err(Usage("Invalid JSON for ptt_hotkeys: " + decoded.error
                          + "\nExpected format: '[{\"keys\":[\"left_control\",\"left_alt\"]}]'")))
        else
          var hotkeys := decoded.value;
          var t := Persist(SetPushToTalkHotkeys(hotkeys), env.stored.(pttHotkeys := hotkeys), env);
          var line := if t.result.Ok? && !quiet then ["Set ptt_hotkeys = " + FormatHotkeysDisplay(hotkeys, env.display)] else [];
          t.(output := line)
  }

  /** One invocation: `version` and `config` never call `connect_or_spawn` (`config` talks over
      the client only to an already running service); every other command first connects,
      spawning the service if needed. */
  function Run(cmd: Command, quiet: bool, env: Env): (t: Trace)
    ensures cmd.Version? ==> t == Trace(false, [], None, [], Ok(()))
    ensures cmd.Version? || cmd.Config? ==> !t.connected
    ensures !cmd.Version? && !cmd.Config? ==> t.connected && t.saved.None? && t.output == []
  {
    if cmd.Version? then Trace(false, [], None, [], Ok(()))
    else if cmd.Config? then HandleConfig(cmd.configAction, quiet, env)
    else if env.connect.Err? then
      Trace(true, [], None, [], Err(FromMessage("Failed to connect to service: " + env.connect.error)))
    else RunConnected(cmd, env)
  }

  // ---------------------------------------------------------------------------------------
  // Properties of a run
  // ---------------------------------------------------------------------------------------

  /** `list` sends one device query, for all devices or for the filter's kind; it never asks
      for mixed sources. */
  lemma ListSendsOneQuery(source: Option<SourceFilter>, env: Env)
    ensures exists kind: Option<AudioSourceType> ::
      RunConnected(List(source), env).requests == [ListDevices(kind)] &&
      (kind.None? <==> source.None?) && kind != Some(MixedSource) &&
      (source == Some(InputDevices) <==> kind == Some(Input))
  {
    var kind := if source.None? then None else Some(FilterType(source.value));
    assert RunConnected(List(source), env).requests == [ListDevices(kind)];
  }

  /** `transcribe` with a source and a connection sends its setup requests in order, the
      sources last, and succeeds exactly when the service accepts the sources and the event
      stream opens. */
  lemma TranscribeSendsSetupThenSources(source1: Option<string>, source2: Option<string>, aec: bool,
                                        mode: RecordingMode, quiet: bool, env: Env)
    requires source1.Some? || source2.Some?
    requires env.connect.Ok?
    ensures var t := Run(Transcribe(source1, source2, aec, mode), quiet, env);
      && t.requests == (if aec then [SetAecEnabled(true), SetRecordingMode(mode), SetSources(source1, source2)]
                        else [SetRecordingMode(mode), SetSources(source1, source2)])
      && t.requests[|t.requests| - 1] == SetSources(source1, source2)
      && (t.result.Ok? <==> env.serve(SetSources(source1, source2)) == Got(OkResponse)
                            && env.eventConnect.Ok? && env.subscribe.Ok?)
  {
  }

  /** Only the reply to the sources request decides the outcome of `transcribe`: the replies to
      the echo-cancellation and recording-mode requests are ignored. */
  lemma TranscribeIgnoresSetupReplies(cmd: Command, quiet: bool, env1: Env, env2: Env)
    requires cmd.Transcribe?
    requires env1.connect == env2.connect && env1.eventConnect == env2.eventConnect && env1.subscribe == env2.subscribe
    requires env1.serve(SetSources(cmd.source1, cmd.source2)) == env2.serve(SetSources(cmd.source1, cmd.source2))
    ensures Run(cmd, quiet, env1) == Run(cmd, quiet, env2)
  {
  }

  /** `transcribe` with neither source fails with a general error after connecting, before any
      request is sent. */
  lemma TranscribeNeedsASource(aec: bool, mode: RecordingMode, quiet: bool, env: Env)
    ensures var t := Run(Transcribe(None, None, aec, mode), quiet, env);
      && t.requests == []
      && t.connected
      && t.result.Err?
      && ExitStatus(t.result) == GeneralExitCode
      && (env.connect.Ok? ==> t.result.error.message == NoSourceMessage)
  {
  }

  /** `stop` clears both sources with one request and succeeds exactly when the service says Ok. */
  lemma StopClearsSources(quiet: bool, env: Env)
    requires env.connect.Ok?
    ensures var t := Run(Stop, quiet, env);
      && t.requests == [SetSources(None, None)]
      && (t.result.Ok? <==> env.serve(SetSources(None, None)) == Got(OkResponse))
  {
  }

  /** Outside `config`, every failure is a general one: exit status 1. */
  lemma ServiceCommandsFailGenerally(cmd: Command, quiet: bool, env: Env)
    requires !cmd.Config?
    ensures Run(cmd, quiet, env).result.Err? ==> ExitStatus(Run(cmd, quiet, env).result) == GeneralExitCode
  {
  }

  /** A model download the service reports as already done is not a failure. */
  lemma AlreadyDownloadedIsSuccess(message: string, quiet: bool, env: Env)
    requires env.connect.Ok?
    requires env.serve(DownloadModel) == Got(ErrorResponse(message))
    ensures Run(Model(Some(Download)), quiet, env).result.Ok? <==> Contains(message, "already downloaded")
  {
  }

  /** `config set` of an unknown key, of a mode that is not one of the two names, or of hotkeys
      that do not decode fails with a usage error (exit status 64) and sends and saves nothing. */
  lemma ConfigSetRejectsBadInput(key: string, value: string, quiet: bool, env: Env)
    requires ValidateConfigKey(key).Err?
          || (key == "transcription_mode" && ParseMode(value).Err?)
          || (key == "ptt_hotkeys" && env.parseHotkeys(value).Err?)
    ensures var t := Run(Config(Set(key, value)), quiet, env);
      && t.requests == [] && t.saved.None? && t.output == []
      && t.result.Err? && ExitStatus(t.result) == UsageExitCode
  {
    var t := HandleConfig(Set(key, value), quiet, env);
    assert Run(Config(Set(key, value)), quiet, env) == t;
    if ValidateConfigKey(key).Err? {
      assert t == Trace(false, [], None, [], Err(ValidateConfigKey(key).error));
    } else if key == "transcription_mode" {
      assert t == Trace(false, [], None, [], Err(ParseMode(value).error));
    } else {
      assert t.result.Err? && t.result.error.exitCode == UsageExitCode;
    }
  }

  /** `config set transcription_mode` of a valid name sends that mode to a reachable service,
      or writes it into the file, keeping the file's hotkeys, when the service is not running;
      the confirmation is printed only after success, and only when not quiet. */
  lemma ConfigSetMode(mode: TranscriptionMode, quiet: bool, env: Env)
    ensures var t := Run(Config(Set("transcription_mode", ModeName(mode))), quiet, env);
      && (env.serviceAvailable ==> t.requests == [SetTranscriptionMode(mode)] && t.saved.None?)
      && (!env.serviceAvailable ==>
            && t.requests == []
            && t.saved == (if env.save.Ok? then Some(ConfigValues(mode, env.stored.pttHotkeys)) else None)
            && (t.result.Ok? <==> env.save.Ok?))
      && t.output == (if t.result.Ok? && !quiet then ["Set transcription_mode = " + ModeName(mode)] else [])
  {
    ModeRoundTrip(mode, ModeName(mode));
  }

  /** What `config get transcription_mode` prints, given back to `config set`, sets the same mode. */
  lemma ConfigGetThenSetRoundTrip(quiet: bool, env: Env)
    requires !env.serviceAvailable
    ensures Run(Config(Get("transcription_mode")), quiet, env).output == [ModeName(env.stored.transcriptionMode)]
    ensures var printed := Run(Config(Get("transcription_mode")), quiet, env).output[0];
      Run(Config(Set("transcription_mode", printed)), quiet, env).saved
        == (if env.save.Ok? then Some(env.stored) else None)
  {
    ModeRoundTrip(env.stored.transcriptionMode, ModeName(env.stored.transcriptionMode));
  }

  /** `config show` prints the mode name and the formatted hotkeys, one line each. */
  lemma ConfigShowLines(quiet: bool, env: Env)
    requires !env.serviceAvailable
    ensures Run(Config(Show), quiet, env).output
         == ["transcription_mode: " + ModeName(env.stored.transcriptionMode),
             "ptt_hotkeys: " + FormatHotkeysDisplay(env.stored.pttHotkeys, env.display)]
    ensures Run(Config(Show), quiet, env).result.Ok?
  {
  }
}
