/** The desktop window's display logic: key and hotkey names, the status line chosen from the
    window's state, the push-to-talk indicator, and how each service event updates that state.

    The window's module-level variables are one `UiState` record; what is on screen (status
    line, indicator, history list) is a `Ui` value, and each event handler is a function from
    one `Ui` to the next. */
module Frontend {
  import opened Common
  import opened Text

  // ---------------------------------------------------------------------------------------
  // Key and hotkey names
  // ---------------------------------------------------------------------------------------

  /** The table of display names of the key codes the window knows; `None` for any other. */
  function KeyDisplayNames(code: string): Option<string>
  {
    match code
    case "right_alt" => Some("Right Alt")
    case "left_alt" => Some("Left Alt")
    case "right_control" => Some("Right Ctrl")
    case "left_control" => Some("Left Ctrl")
    case "right_shift" => Some("Right Shift")
    case "left_shift" => Some("Left Shift")
    case "caps_lock" => Some("Caps Lock")
    case "left_meta" => Some("Left Win")
    case "right_meta" => Some("Right Win")
    case "f1" => Some("F1")
    case "f2" => Some("F2")
    case "f3" => Some("F3")
    case "f4" => Some("F4")
    case "f5" => Some("F5")
    case "f6" => Some("F6")
    case "f7" => Some("F7")
    case "f8" => Some("F8")
    case "f9" => Some("F9")
    case "f10" => Some("F10")
    case "f11" => Some("F11")
    case "f12" => Some("F12")
    case "f13" => Some("F13")
    case "f14" => Some("F14")
    case "f15" => Some("F15")
    case "f16" => Some("F16")
    case "f17" => Some("F17")
    case "f18" => Some("F18")
    case "f19" => Some("F19")
    case "f20" => Some("F20")
    case "f21" => Some("F21")
    case "f22" => Some("F22")
    case "f23" => Some("F23")
    case "f24" => Some("F24")
    case "key_a" => Some("A")
    case "key_b" => Some("B")
    case "key_c" => Some("C")
    case "key_d" => Some("D")
    case "key_e" => Some("E")
    case "key_f" => Some("F")
    case "key_g" => Some("G")
    case "key_h" => Some("H")
    case "key_i" => Some("I")
    case "key_j" => Some("J")
    case "key_k" => Some("K")
    case "key_l" => Some("L")
    case "key_m" => Some("M")
    case "key_n" => Some("N")
    case "key_o" => Some("O")
    case "key_p" => Some("P")
    case "key_q" => Some("Q")
    case "key_r" => Some("R")
    case "key_s" => Some("S")
    case "key_t" => Some("T")
    case "key_u" => Some("U")
    case "key_v" => Some("V")
    case "key_w" => Some("W")
    case "key_x" => Some("X")
    case "key_y" => Some("Y")
    case "key_z" => Some("Z")
    case "digit0" => Some("0")
    case "digit1" => Some("1")
    case "digit2" => Some("2")
    case "digit3" => Some("3")
    case "digit4" => Some("4")
    case "digit5" => Some("5")
    case "digit6" => Some("6")
    case "digit7" => Some("7")
    case "digit8" => Some("8")
    case "digit9" => Some("9")
    case "space" => Some("Space")
    case "tab" => Some("Tab")
    case "enter" => Some("Enter")
    case "escape" => Some("Esc")
    case "backspace" => Some("Backspace")
    case _ => None
  }

  /** A key code's display name; a code without a (non-empty) name shows as itself. */
  function KeyDisplayName(code: string): (name: string)
    ensures KeyDisplayNames(code).Some? ==> name == KeyDisplayNames(code).value
    ensures KeyDisplayNames(code).None? ==> name == code
    ensures name != "" || code == ""
  {
    var entry := KeyDisplayNames(code);
    if entry.Some? && entry.value != "" then entry.value else code
  }

  /** The display name of each key, in order. */
  function KeyNames(keys: seq<string>): (names: seq<string>)
    ensures |names| == |keys|
    ensures forall i :: 0 <= i < |keys| ==> names[i] == KeyDisplayName(keys[i])
  {
    seq(|keys|, i requires 0 <= i < |keys| => KeyDisplayName(keys[i]))
  }

  /** One chord for people: its keys' display names joined by " + ". */
  function HotkeyDisplayName(combo: HotkeyCombination): string
  {
    Join(KeyNames(combo.keys), " + ")
  }

  /** A chord of no keys reads as nothing, one key as its name, and one more key appends
      " + " and its name: the keys keep their order. */
  lemma HotkeyDisplayNameLaw(keys: seq<string>, k: string)
    ensures HotkeyDisplayName(HotkeyCombination([])) == ""
    ensures HotkeyDisplayName(HotkeyCombination([k])) == KeyDisplayName(k)
    ensures |keys| > 0 ==>
      HotkeyDisplayName(HotkeyCombination(keys + [k]))
        == HotkeyDisplayName(HotkeyCombination(keys)) + " + " + KeyDisplayName(k)
  {
    if |keys| > 0 {
      assert KeyNames(keys + [k]) == KeyNames(keys) + [KeyDisplayName(k)];
      JoinSnoc(KeyNames(keys), KeyDisplayName(k), " + ");
    }
  }

  /** The default chord and a two-key chord, by name. */
  lemma HotkeyDisplayNameExamples()
    ensures HotkeyDisplayName(HotkeyCombination(["right_alt"])) == "Right Alt"
    ensures HotkeyDisplayName(HotkeyCombination(["left_control", "left_alt"])) == "Left Ctrl + Left Alt"
    ensures HotkeyDisplayName(HotkeyCombination(["mouse4"])) == "mouse4"
  {
    HotkeyDisplayNameLaw([], "right_alt");
    HotkeyDisplayNameLaw(["left_control"], "left_alt");
    HotkeyDisplayNameLaw([], "mouse4");
    assert ["left_control"] + ["left_alt"] == ["left_control", "left_alt"];
    assert "Left Ctrl" + " + " + "Left Alt" == "Left Ctrl + Left Alt";
  }

  /** The configured chords in a few words: "None", the only chord's name, or the first
      chord's name and how many more there are. */
  function HotkeysDisplaySummary(hotkeys: seq<HotkeyCombination>): (summary: string)
    ensures |hotkeys| == 0 ==> summary == "None"
    ensures |hotkeys| == 1 ==> summary == HotkeyDisplayName(hotkeys[0])
    ensures |hotkeys| > 0 ==> HotkeyDisplayName(hotkeys[0]) <= summary
  {
    if |hotkeys| == 0 then "None"
    else if |hotkeys| == 1 then HotkeyDisplayName(hotkeys[0])
    else HotkeyDisplayName(hotkeys[0]) + (" (+" + NatToString(|hotkeys| - 1) + " more)")
  }

  /** With two or more chords the summary is the first chord's name, then " (+", then a decimal
      count that reads back as the number of other chords, then " more)". */
  lemma SummaryCountsTheRest(hotkeys: seq<HotkeyCombination>)
    requires |hotkeys| >= 2
    ensures exists digits: string ::
      && HotkeysDisplaySummary(hotkeys) == HotkeyDisplayName(hotkeys[0]) + " (+" + digits + " more)"
      && IsDecimal(digits)
      && ParseDecimal(digits) == |hotkeys| - 1
  {
    var digits := NatToString(|hotkeys| - 1);
    DecimalRoundTrip(|hotkeys| - 1);
    var first := HotkeyDisplayName(hotkeys[0]);
    assert first + (" (+" + digits + " more)") == first + " (+" + digits + " more)";
  }

  // ---------------------------------------------------------------------------------------
  // Window state, status line and push-to-talk indicator
  // ---------------------------------------------------------------------------------------

  /** The window's view of the service. */
  datatype UiState = UiState(
    isCapturing: bool,
    inSpeechSegment: bool,
    transcribeQueueDepth: int,
    transcriptionMode: TranscriptionMode,
    pttHotkeys: seq<HotkeyCombination>,
    isPttActive: bool)

  datatype StatusKind = Normal | Progress | Warning | Failure

  /** The status line: its text and style. */
  datatype StatusLine = StatusLine(text: string, kind: StatusKind)

  const ReadyText: string := "Ready - select an audio source to begin"
  const RecordingText: string := "Recording speech..."

  /** The status line for a state. Not capturing wins over everything; while capturing, speech
      wins over pending work, and pending work over the mode. */
  function StatusDisplay(s: UiState): (line: StatusLine)
    ensures line.kind == Normal <==> !s.isCapturing
    ensures line.kind == Progress <==> s.isCapturing
  {
    if !s.isCapturing then StatusLine(ReadyText, Normal)
    else if s.inSpeechSegment then StatusLine(RecordingText, Progress)
    else if s.transcribeQueueDepth > 0 then
      StatusLine("Listening... (" + NatToString(s.transcribeQueueDepth) + " pending)", Progress)
    else
      var modeText :=
        if s.transcriptionMode == PushToTalk then "PTT Ready (" + HotkeysDisplaySummary(s.pttHotkeys) + ")"
        else "Auto (VAD)";
      StatusLine("Listening... [" + modeText + "]", Progress)
  }

  /** What the status line takes into account: when idle, nothing; while in speech, nothing
      else; while work is pending, only its amount; otherwise the mode, and the hotkeys only in
      push-to-talk mode. Whether the push-to-talk chord is held never matters. */
  lemma StatusDisplayDependsOn(s: UiState, t: UiState)
    ensures !s.isCapturing && !t.isCapturing ==> StatusDisplay(s) == StatusDisplay(t) == StatusLine(ReadyText, Normal)
    ensures s.isCapturing && t.isCapturing && s.inSpeechSegment && t.inSpeechSegment ==>
      StatusDisplay(s) == StatusDisplay(t) == StatusLine(RecordingText, Progress)
    ensures s.isCapturing && t.isCapturing && !s.inSpeechSegment && !t.inSpeechSegment
            && s.transcribeQueueDepth > 0 && s.transcribeQueueDepth == t.transcribeQueueDepth ==>
      StatusDisplay(s) == StatusDisplay(t)
    ensures s.isCapturing && t.isCapturing && !s.inSpeechSegment && !t.inSpeechSegment
            && s.transcribeQueueDepth <= 0 && t.transcribeQueueDepth <= 0
            && s.transcriptionMode == t.transcriptionMode == Automatic ==>
      StatusDisplay(s) == StatusDisplay(t) == StatusLine("Listening... [Auto (VAD)]", Progress)
    ensures s.(isPttActive := t.isPttActive) == t ==> StatusDisplay(s) == StatusDisplay(t)
  {
  }

  /** The four phases the status line distinguishes. */
  datatype Phase = Idle | InSpeech | Pending | Listening

  /** The phase of a state, in the status line's order of priority. */
  function PhaseOf(s: UiState): Phase
  {
    if !s.isCapturing then Idle
    else if s.inSpeechSegment then InSpeech
    else if s.transcribeQueueDepth > 0 then Pending
    else Listening
  }

  /** While work is pending the line shows the count in decimal; otherwise, while listening, it
      shows the mode, with the hotkey summary in push-to-talk mode. */
  lemma StatusListeningTexts(s: UiState)
    requires PhaseOf(s) == Pending || PhaseOf(s) == Listening
    ensures PhaseOf(s) == Pending ==> exists digits: string ::
      && StatusDisplay(s).text == "Listening... (" + digits + " pending)"
      && IsDecimal(digits)
      && ParseDecimal(digits) == s.transcribeQueueDepth
    ensures PhaseOf(s) == Listening && s.transcriptionMode == PushToTalk ==>
      StatusDisplay(s).text == "Listening... [" + ("PTT Ready (" + HotkeysDisplaySummary(s.pttHotkeys) + ")") + "]"
    ensures PhaseOf(s) == Listening && s.transcriptionMode == Automatic ==>
      StatusDisplay(s).text == "Listening... [Auto (VAD)]"
  {
    if PhaseOf(s) == Pending {
      StatusPendingText(s);
    } else if s.transcriptionMode == PushToTalk {
      StatusPttReadyText(s);
    }
  }

  /** The pending text carries the queue depth as a decimal numeral. */
  lemma StatusPendingText(s: UiState)
    requires PhaseOf(s) == Pending
    ensures exists digits: string ::
      && StatusDisplay(s).text == "Listening... (" + digits + " pending)"
      && IsDecimal(digits)
      && ParseDecimal(digits) == s.transcribeQueueDepth
  {
    var digits := NatToString(s.transcribeQueueDepth);
    DecimalRoundTrip(s.transcribeQueueDepth);
    assert StatusDisplay(s).text == "Listening... (" + digits + " pending)";
  }

  /** In push-to-talk mode the listening text carries the hotkey summary. */
  lemma StatusPttReadyText(s: UiState)
    requires PhaseOf(s) == Listening && s.transcriptionMode == PushToTalk
    ensures StatusDisplay(s).text == "Listening... [" + ("PTT Ready (" + HotkeysDisplaySummary(s.pttHotkeys) + ")") + "]"
  {
  }

  /** Distinct phases of the capture pipeline read differently: the idle, speech, pending and
      listening texts never coincide. */
  lemma StatusTextsDistinct(s: UiState, t: UiState)
    requires PhaseOf(s) != PhaseOf(t)
    ensures StatusDisplay(s).text != StatusDisplay(t).text
  {
    StatusTextSignature(s);
    StatusTextSignature(t);
  }

  /** Each phase's text can be told apart by its third or fourteenth character. */
  lemma StatusTextSignature(s: UiState)
    ensures |StatusDisplay(s).text| > 13
    ensures var text := StatusDisplay(s).text;
      match PhaseOf(s)
      case Idle => text[2] == 'a'
      case InSpeech => text[2] == 'c'
      case Pending => text[2] == 's' && text[13] == '('
      case Listening => text[2] == 's' && text[13] == '['
  {
    var text := StatusDisplay(s).text;
    match PhaseOf(s)
    case Idle =>
    case InSpeech =>
    case Pending =>
      var prefix := "Listening... (";
      assert text == prefix + (NatToString(s.transcribeQueueDepth) + " pending)");
      assert text[2] == prefix[2] && text[13] == prefix[13];
    case Listening =>
      var prefix := "Listening... [";
      var modeText :=
        if s.transcriptionMode == PushToTalk then "PTT Ready (" + HotkeysDisplaySummary(s.pttHotkeys) + ")"
        else "Auto (VAD)";
      assert text == prefix + (modeText + "]");
      assert text[2] == prefix[2] && text[13] == prefix[13];
  }

  /** The push-to-talk indicator: whether it is hidden, whether it shows the chord as held, and
      its tooltip. */
  datatype PttIndicator = PttIndicator(hidden: bool, active: bool, title: string)

  /** The indicator for a state. It is hidden outside push-to-talk mode, where its tooltip is
      left as it was. */
  function UpdatePttIndicator(s: UiState, previous: PttIndicator): (v: PttIndicator)
    ensures v.hidden <==> s.transcriptionMode != PushToTalk
    ensures v.active <==> s.transcriptionMode == PushToTalk && s.isPttActive
    ensures v.hidden ==> v.title == previous.title
  {
    if s.transcriptionMode == PushToTalk && s.isPttActive then
      PttIndicator(false, true, "PTT Active (" + HotkeysDisplaySummary(s.pttHotkeys) + " held)")
    else if s.transcriptionMode == PushToTalk then
      PttIndicator(false, false, "PTT Ready (press " + HotkeysDisplaySummary(s.pttHotkeys) + " to speak)")
    else
      PttIndicator(true, false, previous.title)
  }

  /** The indicator's three cases, by state. */
  lemma PttIndicatorCases(s: UiState, previous: PttIndicator)
    ensures s.transcriptionMode == PushToTalk && s.isPttActive ==>
      UpdatePttIndicator(s, previous).title == "PTT Active (" + HotkeysDisplaySummary(s.pttHotkeys) + " held)"
    ensures s.transcriptionMode == PushToTalk && !s.isPttActive ==>
      UpdatePttIndicator(s, previous).title == "PTT Ready (press " + HotkeysDisplaySummary(s.pttHotkeys) + " to speak)"
    ensures s.transcriptionMode == Automatic ==> UpdatePttIndicator(s, previous) == PttIndicator(true, false, previous.title)
  {
  }

  // ---------------------------------------------------------------------------------------
  // Events
  // ---------------------------------------------------------------------------------------

  /** One row of the transcription history. */
  datatype HistoryEntry = HistoryEntry(id: string, text: string, timestamp: string, wavPath: Option<string>)

  /** The service events the window listens to. */
  datatype UiEvent =
    | VisualizationData
    | TranscriptionComplete(id: Option<string>, text: string, timestamp: Option<string>, audioPath: Option<string>)
    | SpeechStarted
    | SpeechEnded(durationMs: int)
    | CaptureStateChanged(capturing: bool, error: Option<string>)
    | PttPressed
    | PttReleased
    | TranscriptionModeChanged(mode: TranscriptionMode)
    | HistoryEntryDeleted(deletedId: string)

  /** What is on screen, with the state behind it. */
  datatype Ui = Ui(state: UiState, status: StatusLine, indicator: PttIndicator, history: seq<HistoryEntry>)

  /** Whether an optional string is truthy: present and not empty. */
  predicate Present(o: Option<string>)
  {
    o.Some? && o.value != ""
  }

  /** The history without its first entry carrying `id` (unchanged when there is none). */
  function RemoveFirst(history: seq<HistoryEntry>, id: string): (rest: seq<HistoryEntry>)
    ensures (exists i :: 0 <= i < |history| && history[i].id == id) ==> |rest| == |history| - 1
    ensures (forall i :: 0 <= i < |history| ==> history[i].id != id) ==> rest == history
    decreases |history|
  {
    if |history| == 0 then []
    else if history[0].id == id then history[1..]
    else
      [history[0]] + RemoveFirst(history[1..], id)
  }

  /** Deleting removes exactly the first entry with the id and keeps the others in order. */
  lemma {:induction false} RemoveFirstRemovesFirstMatch(history: seq<HistoryEntry>, id: string, i: nat)
    requires i < |history| && history[i].id == id
    requires forall j :: 0 <= j < i ==> history[j].id != id
    ensures RemoveFirst(history, id) == history[..i] + history[i + 1..]
    decreases |history|
  {
    if i > 0 {
      RemoveFirstRemovesFirstMatch(history[1..], id, i - 1);
      assert history[1..][..i - 1] == history[1..i];
      assert history[1..][i - 1 + 1..] == history[i + 1..];
      assert [history[0]] + history[1..i] == history[..i];
    }
  }

  /** Show the status for the current state. */
  function Refresh(ui: Ui): Ui
  {
    ui.(status := StatusDisplay(ui.state))
  }

  /** The window after one event. */
  function HandleEvent(ui: Ui, e: UiEvent): (next: Ui)
    ensures next.state.pttHotkeys == ui.state.pttHotkeys
    ensures next.state.transcribeQueueDepth == ui.state.transcribeQueueDepth
  {
    match e
    case VisualizationData => ui
    case TranscriptionComplete(id, text, timestamp, audioPath) =>
      if Present(id) && Present(timestamp) then
        ui.(history := ui.history + [HistoryEntry(id.value, text, timestamp.value, audioPath)])
      else ui
    case SpeechStarted => Refresh(ui.(state := ui.state.(inSpeechSegment := true)))
    case SpeechEnded(_) => Refresh(ui.(state := ui.state.(inSpeechSegment := false)))
    case CaptureStateChanged(capturing, error) =>
      var ui' := ui.(state := ui.state.(isCapturing := capturing));
      if Present(error) then ui'.(status := StatusLine("Error: " + error.value, Failure))
      else Refresh(ui')
    case PttPressed =>
      var s := ui.state.(isPttActive := true);
      ui.(state := s, indicator := UpdatePttIndicator(s, ui.indicator))
    case PttReleased =>
      var s := ui.state.(isPttActive := false);
      ui.(state := s, indicator := UpdatePttIndicator(s, ui.indicator))
    case TranscriptionModeChanged(mode) =>
      var s := ui.state.(transcriptionMode := mode);
      Refresh(ui.(state := s, indicator := UpdatePttIndicator(s, ui.indicator)))
    case HistoryEntryDeleted(id) => ui.(history := RemoveFirst(ui.history, id))
  }

  /** Each handler sets its own flag and touches nothing else of the state. */
  lemma HandlersSetFlags(ui: Ui, capturing: bool, error: Option<string>, ms: int, mode: TranscriptionMode)
    ensures HandleEvent(ui, SpeechStarted).state == ui.state.(inSpeechSegment := true)
    ensures HandleEvent(ui, SpeechEnded(ms)).state == ui.state.(inSpeechSegment := false)
    ensures HandleEvent(ui, CaptureStateChanged(capturing, error)).state == ui.state.(isCapturing := capturing)
    ensures HandleEvent(ui, PttPressed).state == ui.state.(isPttActive := true)
    ensures HandleEvent(ui, PttReleased).state == ui.state.(isPttActive := false)
    ensures HandleEvent(ui, TranscriptionModeChanged(mode)).state == ui.state.(transcriptionMode := mode)
  {
  }

  /** A finished transcription is added to the end of the history exactly when it carries both
      an id and a timestamp; nothing else changes. */
  lemma TranscriptionAppendsHistory(ui: Ui, id: Option<string>, text: string, timestamp: Option<string>, audioPath: Option<string>)
    ensures var next := HandleEvent(ui, TranscriptionComplete(id, text, timestamp, audioPath));
      && next.state == ui.state && next.status == ui.status && next.indicator == ui.indicator
      && ui.history <= next.history
      && (|next.history| == |ui.history| + 1 <==> Present(id) && Present(timestamp))
      && (Present(id) && Present(timestamp) ==>
            next.history[|ui.history|] == HistoryEntry(id.value, text, timestamp.value, audioPath))
  {
  }

  /** A capture error is shown as such instead of the state's status line. */
  lemma CaptureErrorShown(ui: Ui, capturing: bool, message: string)
    requires message != ""
    ensures HandleEvent(ui, CaptureStateChanged(capturing, Some(message))).status == StatusLine("Error: " + message, Failure)
  {
  }

  /** The indicator agrees with the state: hidden and active as the state says, and showing
      the state's tooltip when visible. */
  predicate IndicatorAgrees(ui: Ui)
  {
    var v := UpdatePttIndicator(ui.state, ui.indicator);
    ui.indicator.hidden == v.hidden && ui.indicator.active == v.active
    && (!v.hidden ==> ui.indicator.title == v.title)
  }

  /** The screen shows the state. */
  predicate InSync(ui: Ui)
  {
    ui.status == StatusDisplay(ui.state) && IndicatorAgrees(ui)
  }

  /** Every event except a capture error keeps the screen in step with the state, although
      speech and capture events do not refresh the indicator and push-to-talk events do not
      refresh the status line. */
  lemma EventsKeepScreenInSync(ui: Ui, e: UiEvent)
    requires InSync(ui)
    requires !(e.CaptureStateChanged? && Present(e.error))
    ensures InSync(HandleEvent(ui, e))
  {
    var next := HandleEvent(ui, e);
    match e
    case PttPressed =>
      StatusDisplayDependsOn(ui.state, next.state);
    case PttReleased =>
      StatusDisplayDependsOn(ui.state, next.state);
    case _ =>
  }
}
